/** Bets that a settlement leaves pending: exactly those whose stake was committed after it listed its bets. */
module Stragglers {
  import opened Domain
  import opened Payout
  import opened BankOps
  import opened Ledger
  import opened Plans
  import opened Settlement
  import opened ReadCommitted
  import opened Interleaving
  import opened Serializability
  import opened Service
  import opened EventJobs
  import opened Progress
  import opened Crossing
  import opened CatalogueOps
  import Tangles
  import Runs
  import Samples

  // ---------- at the commit ----------

  /** Of the committed pending bets on its outcomes, a settlement leaves pending exactly those it did not list. */
  lemma CommitLeavesExactly(s: Sys, t: nat, b: nat)
    requires Inv(s) && t in s.txs && s.txs[t].pc.Committing? && s.txs[t].job.SettleJob?
    requires b in s.bets && s.bets[b].status == BetPending && s.bets[b].outcomeId in Results(s.txs[t].job)
    ensures b in Next(s, Go(t)).bets
    ensures Next(s, Go(t)).bets[b].status == BetPending <==> b !in Ids(s.txs[t].listed)
  {
    hide Books, Funds, RowsFit, ResultsIn, SoundBet;
    var tx := s.txs[t];
    assert TxInv(s, t, tx);
    assert Ids(tx.todo) == {};
    assert b in tx.written ==> WrittenFits(s, t, tx, b);
  }

  // ---------- from the listing to the commit ----------

  /** No turn starts another transaction under t's number. */
  predicate NoRestart(turns: seq<Turn>, t: nat) {
    forall i :: 0 <= i < |turns| && turns[i].Start? ==> turns[i].t != t
  }

  lemma NextKeepsList(s: Sys, turn: Turn, t: nat)
    requires t in s.txs && HasListed(s.txs[t])
    ensures var next := Next(s, turn); t in next.txs ==> HasListed(next.txs[t]) && next.txs[t].listed == s.txs[t].listed
  {
    hide Statement, HasListed;
    match turn
    case Start(_, _) =>
    case Go(q) =>
      if q in s.txs {
        var next := Statement(s, q, s.txs[q]);
        OthersStay(s, q, s.txs[q]);
        assert q != t ==> t in s.txs - {q} && (next.txs - {q})[t] == (s.txs - {q})[t];
        if q == t {
          ListStays(s, t);
        }
      }
    case Fail(_) =>
  }

  lemma NextStaysGone(s: Sys, turn: Turn, t: nat)
    requires t !in s.txs && !(turn.Start? && turn.t == t)
    ensures t !in Next(s, turn).txs
  {
    hide Statement;
    if turn.Go? && turn.t in s.txs {
      OthersStay(s, turn.t, s.txs[turn.t]);
      assert t !in Statement(s, turn.t, s.txs[turn.t]).txs - {turn.t};
    }
  }

  lemma {:induction false} GoneStaysGone(s: Sys, turns: seq<Turn>, t: nat)
    requires t !in s.txs && NoRestart(turns, t)
    ensures t !in Schedule(s, turns).txs
    decreases |turns|
  {
    hide Next;
    if |turns| > 0 {
      NextStaysGone(s, turns[0], t);
      GoneStaysGone(Next(s, turns[0]), turns[1..], t);
    }
  }

  /** A transaction that is still open has the list it made. */
  lemma {:induction false} ListLasts(s: Sys, turns: seq<Turn>, t: nat)
    requires t in s.txs && HasListed(s.txs[t]) && NoRestart(turns, t) && t in Schedule(s, turns).txs
    ensures HasListed(Schedule(s, turns).txs[t]) && Schedule(s, turns).txs[t].listed == s.txs[t].listed
    decreases |turns|
  {
    hide Next, HasListed;
    if |turns| > 0 {
      NextKeepsList(s, turns[0], t);
      if t in Next(s, turns[0]).txs {
        ListLasts(Next(s, turns[0]), turns[1..], t);
      } else {
        GoneStaysGone(Next(s, turns[0]), turns[1..], t);
      }
    }
  }

  lemma {:induction false} JobLasts(s: Sys, turns: seq<Turn>, t: nat)
    requires t in s.txs && NoRestart(turns, t) && t in Schedule(s, turns).txs
    ensures Schedule(s, turns).txs[t].job == s.txs[t].job
    decreases |turns|
  {
    hide Next;
    if |turns| > 0 {
      if t in Next(s, turns[0]).txs {
        NextKeepsJob(s, turns[0], t);
        JobLasts(Next(s, turns[0]), turns[1..], t);
      } else {
        GoneStaysGone(Next(s, turns[0]), turns[1..], t);
      }
    }
  }

  /** What the listing statement lists: the pending bets on the plan's outcomes that are committed at that moment. */
  lemma ListedExactly(s: Sys, t: nat, b: nat)
    requires Inv(s) && t in s.txs && s.txs[t].pc.Listing?
    ensures var next := Next(s, Go(t));
      && t in next.txs && HasListed(next.txs[t]) && next.txs[t].job == s.txs[t].job
      && (b in Ids(next.txs[t].listed) <==> b in s.bets && PendingOn(Results(s.txs[t].job))(s.bets[b]))
  {
    hide ResultsIn, TxInv, Chained, SoundBet, ListPending;
    JobOfPcListing(s, t);
    var results := Results(s.txs[t].job);
    var todo := ListPending(s.bets, results, s.nextBet);
    ListPendingFits(s.bets, results, s.nextBet);
    assert b in s.bets ==> BetRowFits(s.wallets, s.nextBet, b, s.bets[b]);
    if b in s.bets && PendingOn(results)(s.bets[b]) {
      ListPendingIsComplete(s.bets, results, s.nextBet, b);
    }
    if b in Ids(todo) {
      var i :| 0 <= i < |todo| && todo[i].id == b;
      assert ListedFrom(s.bets, results, s.nextBet, todo[i]);
    }
  }

  lemma JobOfPcListing(s: Sys, t: nat)
    requires Inv(s) && t in s.txs && s.txs[t].pc.Listing?
    ensures s.txs[t].job.SettleJob?
  {
    hide Books, Funds, Claims, RowsFit;
    assert TxInv(s, t, s.txs[t]);
  }

  /**
   * From the listing statement to the commit, whatever interleaves: of the bets pending on the plan's outcomes when the
   * settlement commits, it leaves pending exactly those that were not yet committed when it listed.
   */
  lemma LeftPendingExactly(s: Sys, t: nat, turns: seq<Turn>, b: nat)
    requires Inv(s) && t in s.txs && s.txs[t].pc.Listing? && NoRestart(turns, t)
    requires var later := Schedule(Next(s, Go(t)), turns);
      && t in later.txs && later.txs[t].pc.Committing?
      && b in later.bets && later.bets[b].status == BetPending && later.bets[b].outcomeId in Results(s.txs[t].job)
    ensures var done := Next(Schedule(Next(s, Go(t)), turns), Go(t));
      b in done.bets && (done.bets[b].status == BetPending <==> b !in s.bets)
  {
    hide Inv, Next, Schedule, ResultsIn, HasListed, Statement;
    var listed := Next(s, Go(t));
    var later := Schedule(listed, turns);
    ListedExactly(s, t, b);
    NextKeepsInv(s, Go(t));
    ScheduleKeepsInv(listed, turns);
    ListLasts(listed, turns, t);
    JobLasts(listed, turns, t);
    NextExtends(s, Go(t));
    ScheduleExtends(listed, turns);
    ExtendsTransitive(s, listed, later);
    assert b in s.bets ==> FrozenBet(s.bets[b], later.bets[b]);
    ListedIsSettling(later, t);
    CommitLeavesExactly(later, t, b);
  }

  lemma ListedIsSettling(s: Sys, t: nat)
    requires t in s.txs && HasListed(s.txs[t])
    ensures s.txs[t].job.SettleJob?
  {
  }

  // ---------- every accepted bet can be left pending ----------

  /** The transaction of an accepted bet, at the price it read. */
  function StakeOf(c: Catalogue, u: nat, o: nat, stake: int): Job
    requires o < |c.outcomes| && c.outcomes[o].marketId < |c.markets|
  {
    StakeJob(u, o, c.markets[c.outcomes[o].marketId].eventId, stake, c.outcomes[o].odds)
  }

  predicate CanStake(s: Sys, t: nat, job: Job) {
    && job.StakeJob? && t !in s.txs && 0 < job.stake && 1000 < job.odds
    && job.user in s.wallets && job.stake <= s.wallets[job.user] && Free(s, t, WalletRow(job.user))
    && BetRow(s.nextBet) !in s.locks
  }

  function Debit(s: Sys, job: Job): Move
    requires job.StakeJob?
  {
    Move(job.user, -job.stake, TxBetStake, Some(s.nextBet))
  }

  /** What the stake leaves in the wallet. */
  function Left(s: Sys, job: Job): int
    requires job.StakeJob?
  {
    Base(s.wallets, job.user) - job.stake
  }

  /** The state in which the stake has locked its wallet, and perhaps inserted its bet. */
  function Staking(s: Sys, t: nat, inserted: bool, tx: Tx): Sys
    requires tx.job.StakeJob?
  {
    if inserted then
      s.(nextBet := s.nextBet + 1, locks := s.locks[WalletRow(tx.job.user) := t][BetRow(s.nextBet) := t], txs := s.txs[t := tx])
    else s.(locks := s.locks[WalletRow(tx.job.user) := t], txs := s.txs[t := tx])
  }

  function StakeTx(s: Sys, job: Job, pc: Pc, w: map<nat, int>, rows: seq<LedgerRow>): Tx
    requires job.StakeJob?
  {
    Tx(job, pc, w, map[s.nextBet := BetOf(job)], rows, [], [], s.nextBet)
  }

  lemma StakeStarts(s: Sys, t: nat, job: Job)
    requires CanStake(s, t, job)
    ensures var begun := Put(s, t, Begin(job));
      Next(s, Start(t, job)) == begun && Next(begun, Go(t)) == Staking(s, t, false, Begin(job).(pc := Inserting))
  {
    hide ComputePotentialPayout;
  }

  lemma StakeInserts(s: Sys, t: nat, job: Job)
    requires CanStake(s, t, job)
    ensures Next(Staking(s, t, false, Begin(job).(pc := Inserting)), Go(t))
         == Staking(s, t, true, StakeTx(s, job, Crediting(Debit(s, job)), map[], []))
  {
    hide ComputePotentialPayout;
    assert map[][s.nextBet := BetOf(job)] == map[s.nextBet := BetOf(job)];
  }

  lemma StakeDebits(s: Sys, t: nat, job: Job)
    requires CanStake(s, t, job)
    ensures var move, after := Debit(s, job), Left(s, job);
      Next(Staking(s, t, true, StakeTx(s, job, Crediting(move), map[], [])), Go(t))
      == Staking(s, t, true, StakeTx(s, job, Recording(move, after), map[job.user := after], []))
  {
    hide ComputePotentialPayout, BetOf;
    var locks := s.locks[WalletRow(job.user) := t][BetRow(s.nextBet) := t];
    assert locks[WalletRow(job.user) := t] == locks;
    assert map[][job.user := s.wallets[job.user] - job.stake] == map[job.user := s.wallets[job.user] - job.stake];
  }

  lemma StakeRecords(s: Sys, t: nat, job: Job, after: int, w: map<nat, int>)
    requires CanStake(s, t, job)
    ensures Next(Staking(s, t, true, StakeTx(s, job, Recording(Debit(s, job), after), w, [])), Go(t))
         == Staking(s, t, true, StakeTx(s, job, Committing, w, [RowFor(Debit(s, job), after)]))
  {
    hide ComputePotentialPayout, BetOf;
    assert [] + [RowFor(Debit(s, job), after)] == [RowFor(Debit(s, job), after)];
  }

  /** What the stake leaves: its bet, and nothing else that another transaction could see of it. */
  predicate Staked(s: Sys, next: Sys, t: nat, job: Job)
    requires job.StakeJob?
  {
    && next.bets == s.bets[s.nextBet := BetOf(job)] && next.nextBet == s.nextBet + 1
    && SameOthers(s, next, t) && t !in next.txs && Unlocked(next.locks, t) == next.locks
  }

  lemma StakeCommits(s: Sys, t: nat, job: Job, w: map<nat, int>, rows: seq<LedgerRow>)
    requires CanStake(s, t, job)
    ensures Staked(s, Next(Staking(s, t, true, StakeTx(s, job, Committing, w, rows)), Go(t)), t, job)
  {
    hide ComputePotentialPayout, BetOf;
    assert s.bets + map[s.nextBet := BetOf(job)] == s.bets[s.nextBet := BetOf(job)];
  }

  function StakeTurns(t: nat, job: Job): seq<Turn> {
    [Start(t, job)] + ([Go(t)] + ([Go(t)] + ([Go(t)] + ([Go(t)] + [Go(t)]))))
  }

  lemma SixTurns(s: Sys, t: nat, job: Job)
    ensures Schedule(s, StakeTurns(t, job)) == Next(Next(Next(Next(Next(Next(s, Start(t, job)), Go(t)), Go(t)), Go(t)), Go(t)), Go(t))
  {
    hide Next, Schedule;
    var begun := Next(s, Start(t, job));
    var guarded := Next(begun, Go(t));
    var inserted := Next(guarded, Go(t));
    var credited := Next(inserted, Go(t));
    ScheduleOne(Next(credited, Go(t)), Go(t));
    ScheduleCons(credited, Go(t), [Go(t)]);
    ScheduleCons(inserted, Go(t), [Go(t)] + [Go(t)]);
    ScheduleCons(guarded, Go(t), [Go(t)] + ([Go(t)] + [Go(t)]));
    ScheduleCons(begun, Go(t), [Go(t)] + ([Go(t)] + ([Go(t)] + [Go(t)])));
    ScheduleCons(s, Start(t, job), [Go(t)] + ([Go(t)] + ([Go(t)] + ([Go(t)] + [Go(t)]))));
  }

  /** Six turns place a bet. */
  lemma StakeRuns(s: Sys, t: nat, job: Job)
    requires job.StakeJob? && CanStake(s, t, job)
    ensures Staked(s, Schedule(s, StakeTurns(t, job)), t, job)
  {
    hide Next, Staking, StakeTx, Staked, CanStake, Put, Debit, Schedule, SameTables, SameOthers, StakeTurns, RowFor, Begin, Left;
    var move, after := Debit(s, job), Left(s, job);
    var w := map[job.user := after];
    StakeStarts(s, t, job);
    StakeInserts(s, t, job);
    StakeDebits(s, t, job);
    StakeRecords(s, t, job, after, w);
    StakeCommits(s, t, job, w, [RowFor(move, after)]);
    SixTurns(s, t, job);
  }

  // ---------- the settlement around it ----------

  /** Nothing but t is under way. */
  ghost predicate Alone(s: Sys, t: nat) {
    s.txs.Keys == {t} && forall r :: r in s.locks ==> s.locks[r] == t
  }

  lemma StaysAlone(s: Sys, next: Sys, t: nat)
    requires Alone(s, t) && SameOthers(s, next, t) && t in next.txs
    ensures Alone(next, t)
  {
    forall q ensures q in next.txs <==> q == t {
      assert q != t ==> (q in next.txs <==> q in next.txs - {t}) && (q in s.txs <==> q in s.txs - {t});
    }
    forall r | r in next.locks ensures next.locks[r] == t {
      assert next.locks[r] != t ==> r in Unlocked(next.locks, t) && r in Unlocked(s.locks, t);
    }
  }

  lemma AloneCanPass(s: Sys, t: nat)
    requires AtBets(s, t) && Alone(s, t)
    ensures CanPass(s, t, |s.txs[t].todo|)
  {
    hide Inv, ItemsRows;
  }

  /** With no bet left the settlement closes the event. */
  lemma Closes(s: Sys, t: nat)
    requires AtBets(s, t) && s.txs[t].todo == [] && Alone(s, t)
    ensures var ready := Next(Next(s, Go(t)), Go(t));
      && SameTables(s, ready) && t in ready.txs && ready.txs[t].pc.Committing? && ready.txs[t].job == s.txs[t].job
      && ready.txs[t].listed == s.txs[t].listed && Alone(ready, t)
  {
    hide Inv, ResultsIn;
  }

  lemma CommitFrees(s: Sys, t: nat)
    requires t in s.txs && s.txs[t].pc.Committing? && Alone(s, t)
    ensures Next(s, Go(t)).txs == map[] && Next(s, Go(t)).locks == map[]
  {
  }

  /** The listed bets have the plan's results, and no other bet has changed. */
  ghost predicate ListedAreResolved(bets: map<nat, Bet>, next: map<nat, Bet>, job: Job, listed: seq<Listed>) {
    && (forall b: nat :: b in next <==> b in bets)
    && (forall b: nat :: b in bets ==> next[b] == if b in Ids(listed) then Resolve(Results(job), bets[b]) else bets[b])
  }

  lemma CommitResolves(s: Sys, t: nat)
    requires Inv(s) && t in s.txs && s.txs[t].pc.Committing? && s.txs[t].job.SettleJob?
    ensures ListedAreResolved(s.bets, Next(s, Go(t)).bets, s.txs[t].job, s.txs[t].listed)
  {
    hide Inv, Next, Results, Resolve, Ids;
    var next := Next(s, Go(t));
    forall b: nat ensures b in next.bets <==> b in s.bets {
      CommitTouches(s, t, b);
    }
    forall b: nat | b in s.bets
      ensures next.bets[b] == if b in Ids(s.txs[t].listed) then Resolve(Results(s.txs[t].job), s.bets[b]) else s.bets[b]
    {
      CommitTouches(s, t, b);
      if b in Ids(s.txs[t].listed) {
        CommitDecidesListed(s, t, b);
      }
    }
  }

  lemma LastTurns(s: Sys, turns: seq<Turn>, t: nat)
    ensures Schedule(s, turns + ([Go(t)] + ([Go(t)] + [Go(t)]))) == Next(Next(Next(Schedule(s, turns), Go(t)), Go(t)), Go(t))
  {
    hide Next, Schedule;
    var paid := Schedule(s, turns);
    ScheduleOne(Next(Next(paid, Go(t)), Go(t)), Go(t));
    ScheduleCons(Next(paid, Go(t)), Go(t), [Go(t)]);
    ScheduleCons(paid, Go(t), [Go(t)] + [Go(t)]);
    ScheduleAppend(s, turns, [Go(t)] + ([Go(t)] + [Go(t)]));
  }

  /** Alone with its list, a settlement gets to its commit. */
  lemma SettlementEnds(s: Sys, t: nat) returns (turns: seq<Turn>)
    requires AtBets(s, t) && Alone(s, t)
    ensures Only(turns, t)
    ensures var done := Schedule(s, turns);
      done.txs == map[] && done.locks == map[] && ListedAreResolved(s.bets, done.bets, s.txs[t].job, s.txs[t].listed)
  {
    hide Inv, Next, Results, Alone, CanPass, SameOthers, ListedAreResolved, Schedule;
    AloneCanPass(s, t);
    var paying := SettlesMany(s, t, |s.txs[t].todo|);
    var paid := Schedule(s, paying);
    StaysAlone(s, paid, t);
    Closes(paid, t);
    var ready := Next(Next(paid, Go(t)), Go(t));
    NextKeepsInv(paid, Go(t));
    NextKeepsInv(Next(paid, Go(t)), Go(t));
    CommitFrees(ready, t);
    CommitResolves(ready, t);
    LastTurns(s, paying, t);
    turns := paying + ([Go(t)] + ([Go(t)] + [Go(t)]));
  }

  // ---------- both together ----------

  lemma ListHoldsPending(bank: Bank, results: map<nat, Result>, b: nat)
    ensures var rest := AtRest(bank);
      b in Ids(ListPending(rest.bets, results, |bank.bets|)) <==> b < |bank.bets| && PendingOn(results)(bank.bets[b])
  {
    var rest := AtRest(bank);
    var items := ListPending(rest.bets, results, |bank.bets|);
    ListPendingFits(rest.bets, results, |bank.bets|);
    if b < |bank.bets| && PendingOn(results)(bank.bets[b]) {
      ListPendingIsComplete(rest.bets, results, |bank.bets|, b);
    }
    hide ListPending;
    if b in Ids(items) {
      var i :| 0 <= i < |items| && items[i].id == b;
      assert ListedFrom(rest.bets, results, |bank.bets|, items[i]);
    }
  }

  /** The stored bet of an accepted call is the one its transaction inserts. */
  lemma AcceptedIsStaked(db: Db, cfg: Config, now: int, u: nat, o: nat, stake: int)
    requires Runs.Inv(db, cfg) && PlaceBet(db, cfg, now, u, o, stake).Ok?
    ensures Acceptable(db, cfg, now, u, o, stake) && 1000 < db.cat.outcomes[o].odds
    ensures PlaceBet(db, cfg, now, u, o, stake).value.bank.bets == db.bank.bets + [BetOf(StakeOf(db.cat, u, o, stake))]
  {
    hide BankInv, ComputePotentialPayout;
    assert SaneOutcome(db.cat, o);
  }

  /** A settlement at its list leaves a stake its way. */
  lemma StakeHasWay(rest: Sys, s: Sys, job: Job, stake: Job)
    requires rest.txs == map[] && rest.locks == map[] && Away(rest, s, 1) && 1 in s.txs
    requires job.SettleJob? && LocksOnly(rest, s, 1, PlanRows(job))
    requires Affordable(rest, stake)
    ensures Alone(s, 1) && CanStake(s, 0, stake)
  {
    hide PlanRows;
    forall q ensures q in s.txs <==> q == 1 {
      assert q != 1 ==> (q in s.txs <==> q in s.txs - {1}) && (q in rest.txs <==> q in rest.txs - {1});
    }
    forall r | r in s.locks ensures s.locks[r] == 1 && (r.MarketRow? || r.OutcomeRow?) {
      assert s.locks[r] == 1 by {
        assert Unlocked(s.locks, 1) == map[];
        FreeIsUnlocked(s, 1, r);
      }
      assert Held(s, 1, r);
      Tangles.PlanRowsAre(job, r);
    }
  }

  lemma StakeLeavesAlone(s: Sys, next: Sys, stake: Job)
    requires Alone(s, 1) && stake.StakeJob? && Staked(s, next, 0, stake)
    ensures Alone(next, 1) && next.txs == s.txs
  {
    assert next.txs == next.txs - {0} && s.txs == s.txs - {0};
    assert Unlocked(s.locks, 0) == s.locks;
  }

  /** The bets once the stake and the settlement are done: the new one pending, the others as the verdicts say. */
  ghost predicate LeavesNewBet(bank: Bank, next: map<nat, Bet>, bet: Bet, verdicts: map<nat, Result>) {
    var n := |bank.bets|;
    && (forall b: nat :: b in next <==> b <= n)
    && (forall b: nat :: b < n ==> next[b] == Resolve(verdicts, bank.bets[b]))
    && next[n] == bet
  }

  lemma NewBetIsLeft(bank: Bank, s: Sys, next: map<nat, Bet>, job: Job, bet: Bet)
    requires job.SettleJob? && s.bets == AtRest(bank).bets[|bank.bets| := bet]
    requires ListedAreResolved(s.bets, next, job, ListPending(AtRest(bank).bets, Results(job), |bank.bets|))
    ensures LeavesNewBet(bank, next, bet, Results(job))
  {
    hide ListPending, Results, Ids;
    var n := |bank.bets|;
    forall b: nat | b < n ensures next[b] == Resolve(Results(job), bank.bets[b]) {
      ListHoldsPending(bank, Results(job), b);
    }
    ListHoldsPending(bank, Results(job), n);
  }

  /** The settlement has its list, and the stake has committed since. */
  ghost predicate SlippedIn(rest: Sys, s: Sys, job: Job, stake: Job)
    requires stake.StakeJob?
  {
    && AtBets(s, 1) && Alone(s, 1) && s.bets == rest.bets[rest.nextBet := BetOf(stake)]
    && s.txs[1].job == job && s.txs[1].listed == ListPending(rest.bets, Results(job), rest.nextBet)
  }

  lemma ListedThenStaked(rest: Sys, listed: Sys, staked: Sys, job: Job, stake: Job)
    requires Inv(staked) && Away(rest, listed, 1) && stake.StakeJob? && Staked(listed, staked, 0, stake)
    requires 1 in listed.txs && listed.txs[1] == WithList(job, ListPending(rest.bets, Results(job), rest.nextBet))
    requires job.SettleJob? && Alone(staked, 1) && staked.txs == listed.txs
    ensures SlippedIn(rest, staked, job, stake)
  {
    hide Inv, ListPending, Results, BetOf;
  }

  /** What the stake asks of the database it starts from. */
  predicate Affordable(s: Sys, stake: Job) {
    && stake.StakeJob? && 0 < stake.stake && 1000 < stake.odds
    && stake.user in s.wallets && stake.stake <= s.wallets[stake.user]
  }

  lemma ListsFirst(rest: Sys, job: Job) returns (turns: seq<Turn>)
    requires rest.txs == map[] && rest.locks == map[] && job.SettleJob?
    ensures Only(turns, 1)
    ensures var listed := Schedule(rest, [Start(1, job)] + turns);
      && Away(rest, listed, 1) && 1 in listed.txs && LocksOnly(rest, listed, 1, PlanRows(job))
      && listed.txs[1] == WithList(job, ListPending(rest.bets, Results(job), rest.nextBet))
  {
    assert AllFree(rest, 1, PlanRows(job));
    hide Results, Schedule, LocksOnly, Away, Next, ListPending, AllFree, PlanRows;
    turns := RunsToList(rest, 1, job);
  }

  lemma StakesBehind(rest: Sys, listed: Sys, job: Job, stake: Job)
    requires Inv(listed) && rest.txs == map[] && rest.locks == map[] && job.SettleJob? && Affordable(rest, stake)
    requires Away(rest, listed, 1) && 1 in listed.txs && LocksOnly(rest, listed, 1, PlanRows(job))
    requires listed.txs[1] == WithList(job, ListPending(rest.bets, Results(job), rest.nextBet))
    ensures SlippedIn(rest, Schedule(listed, StakeTurns(0, stake)), job, stake)
  {
    hide Inv, Results, Schedule, LocksOnly, Away, Next, BetOf, ListPending, SlippedIn, Staked, Alone, CanStake, StakeTurns;
    StakeHasWay(rest, listed, job, stake);
    StakeRuns(listed, 0, stake);
    var staked := Schedule(listed, StakeTurns(0, stake));
    StakeLeavesAlone(listed, staked, stake);
    ScheduleKeepsInv(listed, StakeTurns(0, stake));
    ListedThenStaked(rest, listed, staked, job, stake);
  }

  lemma StakeSlipsIn(rest: Sys, job: Job, stake: Job) returns (turns: seq<Turn>)
    requires Inv(rest) && rest.txs == map[] && rest.locks == map[] && job.SettleJob? && Affordable(rest, stake)
    ensures OnlyThese(turns, [stake, job]) && SlippedIn(rest, Schedule(rest, turns), job, stake)
  {
    hide Inv, Results, Schedule, LocksOnly, Away, Next, ListPending, SlippedIn, PlanRows, Affordable;
    var listing := ListsFirst(rest, job);
    var begun := [Start(1, job)] + listing;
    ScheduleKeepsInv(rest, begun);
    assert stake.StakeJob? by {
      AffordableStakes(rest, stake);
    }
    StakesBehind(rest, Schedule(rest, begun), job, stake);
    ScheduleAppend(rest, begun, StakeTurns(0, stake));
    turns := begun + StakeTurns(0, stake);
  }

  lemma AffordableStakes(s: Sys, stake: Job)
    requires Affordable(s, stake)
    ensures stake.StakeJob?
  {
  }

  /** A settlement with an empty or full list, a stake that commits behind it, and the settlement's end. */
  lemma MissedAtRest(bank: Bank, job: Job, stake: Job) returns (turns: seq<Turn>)
    requires Inv(AtRest(bank)) && job.SettleJob? && Affordable(AtRest(bank), stake)
    ensures OnlyThese(turns, [stake, job])
    ensures var done := Schedule(AtRest(bank), turns);
      done.txs == map[] && done.locks == map[] && LeavesNewBet(bank, done.bets, BetOf(stake), Results(job))
  {
    var rest := AtRest(bank);
    hide Inv, Results, Schedule, Next, BetOf, ListPending, Alone, AtBets, ListedAreResolved, LeavesNewBet, Affordable;
    AffordableStakes(rest, stake);
    var first := StakeSlipsIn(rest, job, stake);
    var staked := Schedule(rest, first);
    var ending := SettlementEnds(staked, 1);
    NewBetIsLeft(bank, staked, Schedule(staked, ending).bets, job, BetOf(stake));
    ScheduleAppend(rest, first, ending);
    turns := first + ending;
  }

  /** The bet the call stores. */
  function PlacedBet(db: Db, u: nat, o: nat, stake: int): Bet
    requires o < |db.cat.outcomes| && db.cat.outcomes[o].marketId < |db.cat.markets|
  {
    BetOf(StakeOf(db.cat, u, o, stake))
  }

  /**
   * Any bet a user can place can be left pending by any settlement of its event: the settlement lists, the stake commits,
   * the settlement decides what it listed and commits. Nothing is then under way that would decide the new bet.
   */
  lemma AnyBetCanBeMissed(db: Db, cfg: Config, now: int, u: nat, o: nat, stake: int, close: Close) returns (turns: seq<Turn>)
    requires Runs.Inv(db, cfg) && PlaceBet(db, cfg, now, u, o, stake).Ok? && Affects(db.cat, close.e, o)
    ensures PlaceBet(db, cfg, now, u, o, stake).value.bank.bets == db.bank.bets + [PlacedBet(db, u, o, stake)]
    ensures PlacedBet(db, u, o, stake).status == BetPending
    ensures OnlyThese(turns, [StakeOf(db.cat, u, o, stake), JobOf(db.cat, close)])
    ensures var done, verdicts := Schedule(AtRest(db.bank), turns), Verdicts(db.cat, close.e, close.d);
      && done.txs == map[] && done.locks == map[] && o in verdicts
      && LeavesNewBet(db.bank, done.bets, PlacedBet(db, u, o, stake), verdicts)
  {
    AcceptedIsStaked(db, cfg, now, u, o, stake);
    JobCoversEvent(db.cat, close);
    Tangles.JobSettles(db.cat, close);
    AtRestKeepsInv(db.bank, cfg.signupBonus);
    assert o in Verdicts(db.cat, close.e, close.d);
    hide Runs.Inv, BankInv, Inv, PlaceBet, JobOf, Results, Verdicts, Schedule, BetOf, AtRest, LeavesNewBet;
    turns := MissedAtRest(db.bank, JobOf(db.cat, close), StakeOf(db.cat, u, o, stake));
  }

  /** The admin settles the first custom event. */
  const SETTLED := Close(0, EventSettled, ByWinner(0), NoScores)

  lemma OneBetLeft(bank: Bank, next: map<nat, Bet>, bet: Bet, verdicts: map<nat, Result>)
    requires bank.bets == [] && LeavesNewBet(bank, next, bet, verdicts)
    ensures next == map[0 := bet]
  {
  }

  lemma FirstBetIsPlaced(db: Db)
    requires db.cat == Samples.CAT && Samples.BothOpen(Samples.CAT) && db.bank.wallets == map[0 := 100, 1 := 100]
    ensures PlaceBet(db, Samples.CFG, 0, 0, 0, 10).Ok? && PlacedBet(db, 0, 0, 10) == Samples.Ten(0, 0)
    ensures CloseOf(db.cat, SettleCustom(0, 0)) == Ok(SETTLED) && Affects(db.cat, 0, 0)
  {
    hide Samples.CAT;
    PlaceBetExactly(db, Samples.CFG, 0, 0, 0, 10);
    hide PlaceBet;
  }

  /** Two users have registered, and a bet on the winner of a custom event is left pending when the admin settles the event. */
  lemma ABetCanBeLeftPending() returns (turns: seq<Turn>)
    ensures var db := Run(EMPTY, Samples.CFG, Samples.USERS);
      && PlaceBet(db, Samples.CFG, 0, 0, 0, 10).Ok? && CloseOf(db.cat, SettleCustom(0, 0)) == Ok(SETTLED)
      && 0 < |db.cat.outcomes| && db.cat.outcomes[0].marketId < |db.cat.markets|
      && OnlyThese(turns, [StakeOf(db.cat, 0, 0, 10), JobOf(db.cat, SETTLED)])
      && var done := Schedule(AtRest(db.bank), turns);
         done.txs == map[] && done.locks == map[] && done.bets == map[0 := Samples.Ten(0, 0)]
  {
    Samples.UsersAreReached();
    Runs.ReachableKeepsInv(Samples.CFG, Samples.USERS);
    hide Run, Samples.CAT, Samples.BothOpen, Runs.Inv, PlaceBet, PlacedBet, JobOf, Verdicts, AtRest, Schedule, LeavesNewBet, CloseOf;
    var db := Run(EMPTY, Samples.CFG, Samples.USERS);
    FirstBetIsPlaced(db);
    turns := AnyBetCanBeMissed(db, Samples.CFG, 0, 0, 0, 10, SETTLED);
    OneBetLeft(db.bank, Schedule(AtRest(db.bank), turns).bets, PlacedBet(db, 0, 0, 10), Verdicts(db.cat, 0, ByWinner(0)));
  }
}
