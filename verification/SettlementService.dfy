/** SettlementService: a settlement plan applied row by row, against Settlement.ApplyPlan. */
module SettlementService {
  import opened Sums
  import opened Domain
  import opened BankOps
  import opened Plans
  import opened CatalogueOps
  import opened Settlement
  import opened Store
  import opened MoneyServices

  // ---------- steps 1 and 2: market statuses and outcome results ----------

  lemma {:induction false} StatusesGrow(markets: seq<MarketPlan>, i: nat, m: nat)
    requires i <= |markets| && m in StatusesOf(markets[..i])
    ensures m in StatusesOf(markets)
    decreases |markets| - i
  {
    if i < |markets| {
      assert markets[..i + 1][..i] == markets[..i];
      StatusesGrow(markets, i + 1, m);
    } else {
      assert markets[..i] == markets;
    }
  }

  lemma {:induction false} ResultsGrow(markets: seq<MarketPlan>, i: nat, o: nat)
    requires i <= |markets| && o in ResultsOf(markets[..i])
    ensures o in ResultsOf(markets)
    decreases |markets| - i
  {
    if i < |markets| {
      assert markets[..i + 1][..i] == markets[..i];
      ResultsGrow(markets, i + 1, o);
    } else {
      assert markets[..i] == markets;
    }
  }

  /** results[op.outcomeID] = op.result, over one market's outcomes. */
  method Collect(results: map<nat, Result>, ops: seq<OutcomePlan>) returns (next: map<nat, Result>)
    ensures next == results + ResultsIn(ops)
  {
    next := results;
    for j := 0 to |ops|
      invariant next == results + ResultsIn(ops[..j])
    {
      assert ops[..j + 1][..j] == ops[..j];
      next := next[ops[j].outcomeId := ops[j].result];
    }
    assert ops[..|ops|] == ops;
  }

  method MarkMarkets(db: Database, markets: seq<MarketPlan>) returns (results: map<nat, Result>, err: Option<Error>)
    modifies db`markets, db`faults, db`sane
    ensures err.None? ==>
      results == ResultsOf(markets) && AllBelow(StatusesOf(markets), |old(db.markets)|)
      && db.markets == Marked(old(db.markets), StatusesOf(markets))
    ensures err.Some? ==>
      FailsWhen(err.value, ErrNotFound, !AllBelow(StatusesOf(markets), |old(db.markets)|))
    ensures db.Lost() == old(db.Lost()) - LossOf(err)
    ensures old(db.AlwaysSane()) ==> db.AlwaysSane()
  {
    assert Marked(db.markets, map[]) == db.markets;
    hide Database.AlwaysSane, Marked, ResultsIn;
    results := map[];
    for i := 0 to |markets|
      invariant results == ResultsOf(markets[..i]) && AllBelow(StatusesOf(markets[..i]), |db.markets|)
      invariant db.markets == Marked(old(db.markets), StatusesOf(markets[..i]))
      invariant db.Lost() == old(db.Lost())
      invariant old(db.AlwaysSane()) ==> db.AlwaysSane()
    {
      assert markets[..i + 1][..i] == markets[..i];
      results := Collect(results, markets[i].outcomes);
      var m, status := markets[i].marketId, markets[i].status;
      SameSizes([], map[], old(db.markets), StatusesOf(markets[..i]));
      err := db.MarketsUpdateStatus(m, status);
      StatusesGrow(markets, i + 1, m);
      if err.Some? {
        return;
      }
      MarkOneMore(old(db.markets), StatusesOf(markets[..i]), m, status);
    }
    assert markets[..|markets|] == markets;
    err := None;
  }

  lemma RuleOneMore(outcomes: seq<Outcome>, results: map<nat, Result>, o: nat, result: Result)
    requires o < |outcomes|
    ensures Ruled(outcomes, results)[o := Ruled(outcomes, results)[o].(result := Some(result))] == Ruled(outcomes, results[o := result])
  {
  }

  lemma MarkOneMore(markets: seq<Market>, statuses: map<nat, MarketStatus>, m: nat, status: MarketStatus)
    requires m < |markets|
    ensures Marked(markets, statuses)[m := Marked(markets, statuses)[m].(status := status)] == Marked(markets, statuses[m := status])
  {
  }

  lemma SameSizes(outcomes: seq<Outcome>, results: map<nat, Result>, markets: seq<Market>, statuses: map<nat, MarketStatus>)
    ensures |Ruled(outcomes, results)| == |outcomes| && |Marked(markets, statuses)| == |markets|
  {
  }

  method RuleMarket(db: Database, ops: seq<OutcomePlan>, ghost before: seq<Outcome>, ghost done: map<nat, Result>)
    returns (err: Option<Error>)
    requires db.outcomes == Ruled(before, done)
    modifies db`outcomes, db`faults, db`sane
    ensures err.None? ==> AllBelow(ResultsIn(ops), |before|) && db.outcomes == Ruled(before, done + ResultsIn(ops))
    ensures err.Some? ==> FailsWhen(err.value, ErrNotFound, !AllBelow(ResultsIn(ops), |before|))
    ensures db.Lost() == old(db.Lost()) - LossOf(err)
    ensures old(db.AlwaysSane()) ==> db.AlwaysSane()
  {
    hide Database.AlwaysSane, Ruled;
    assert done + map[] == done;
    for j := 0 to |ops|
      invariant AllBelow(ResultsIn(ops[..j]), |before|) && db.outcomes == Ruled(before, done + ResultsIn(ops[..j]))
      invariant db.Lost() == old(db.Lost())
      invariant old(db.AlwaysSane()) ==> db.AlwaysSane()
    {
      assert ops[..j + 1][..j] == ops[..j];
      var o, result := ops[j].outcomeId, ops[j].result;
      SameSizes(before, done + ResultsIn(ops[..j]), [], map[]);
      err := db.OutcomesUpdateResult(o, result);
      if err.Some? {
        ResultsInEntries(ops);
        assert o in ResultsIn(ops);
        return;
      }
      RuleOneMore(before, done + ResultsIn(ops[..j]), o, result);
      assert (done + ResultsIn(ops[..j]))[o := result] == done + ResultsIn(ops[..j + 1]);
    }
    assert ops[..|ops|] == ops;
    err := None;
  }

  method RuleOutcomes(db: Database, markets: seq<MarketPlan>) returns (err: Option<Error>)
    modifies db`outcomes, db`faults, db`sane
    ensures err.None? ==>
      AllBelow(ResultsOf(markets), |old(db.outcomes)|) && db.outcomes == Ruled(old(db.outcomes), ResultsOf(markets))
    ensures err.Some? ==>
      FailsWhen(err.value, ErrNotFound, !AllBelow(ResultsOf(markets), |old(db.outcomes)|))
    ensures db.Lost() == old(db.Lost()) - LossOf(err)
    ensures old(db.AlwaysSane()) ==> db.AlwaysSane()
  {
    hide Database.AlwaysSane, ResultsIn;
    assert db.outcomes == Ruled(db.outcomes, map[]);
    for i := 0 to |markets|
      invariant AllBelow(ResultsOf(markets[..i]), |old(db.outcomes)|)
      invariant db.outcomes == Ruled(old(db.outcomes), ResultsOf(markets[..i]))
      invariant db.Lost() == old(db.Lost())
      invariant old(db.AlwaysSane()) ==> db.AlwaysSane()
    {
      assert markets[..i + 1][..i] == markets[..i];
      err := RuleMarket(db, markets[i].outcomes, old(db.outcomes), ResultsOf(markets[..i]));
      if err.Some? {
        forall o: nat | o in ResultsIn(markets[i].outcomes) ensures o in ResultsOf(markets) {
          ResultsGrow(markets, i + 1, o);
        }
        return;
      }
    }
    assert markets[..|markets|] == markets;
    err := None;
  }

  // ---------- step 3: every pending bet ----------

  /** payout, refund or nothing, then the final status. */
  method SettleOne(db: Database, results: map<nat, Result>, b: nat, bet: Bet) returns (err: Option<Error>)
    requires b < |db.bets| && db.bets[b] == bet
    modifies db`wallets, db`ledger, db`bets, db`faults
    ensures Performs(SettleBet(old(db.Money()), results, b), db.Money(), err)
    ensures db.Lost() == old(db.Lost()) - LossOf(err)
  {
    if bet.outcomeId !in results {
      return None;
    }
    var result := results[bet.outcomeId];
    err := None;
    if result == ResultWon {
      err := Move(db, bet.userId, bet.payout, TxBetPayout, Some(b));
    } else if result == ResultVoid {
      err := Move(db, bet.userId, bet.stake, TxBetRefund, Some(b));
    }
    if err.Some? {
      return;
    }
    err := db.BetsUpdateStatusSettled(b, BetStatusFromResult(result));
  }

  /** The loop stops at the first bet it cannot settle. */
  lemma {:induction false} SettleBetsStops(bank: Bank, results: map<nat, Result>, ids: seq<nat>, k: nat)
    requires forall i :: 0 <= i < |ids| ==> ids[i] < |bank.bets|
    requires k <= |ids| && SettleBets(bank, results, ids[..k]).Err?
    ensures SettleBets(bank, results, ids) == SettleBets(bank, results, ids[..k])
    decreases |ids| - k
  {
    if k < |ids| {
      assert ids[..k + 1][..k] == ids[..k];
      SettleBetsStops(bank, results, ids, k + 1);
    } else {
      assert ids[..k] == ids;
    }
  }

  method PayListed(db: Database, results: map<nat, Result>, rows: seq<(nat, Bet)>, ghost ids: seq<nat>)
    returns (err: Option<Error>)
    requires |rows| == |ids| && forall i :: 0 <= i < |ids| ==> ids[i] < |db.bets| && rows[i] == (ids[i], db.bets[ids[i]])
    requires forall i, j :: 0 <= i < j < |ids| ==> ids[i] != ids[j]
    modifies db`wallets, db`ledger, db`bets, db`faults
    ensures Performs(SettleBets(old(db.Money()), results, ids), db.Money(), err)
    ensures db.Lost() == old(db.Lost()) - LossOf(err)
  {
    hide SettleBet;
    ghost var bank := db.Money();
    for k := 0 to |rows|
      invariant SettleBets(bank, results, ids[..k]) == Ok(db.Money())
      invariant |db.bets| == |bank.bets| && forall j :: k <= j < |rows| ==> db.bets[ids[j]] == rows[j].1
      invariant db.Lost() == old(db.Lost())
    {
      assert ids[..k + 1][..k] == ids[..k];
      SettleBetTouchesOne(db.Money(), results, ids[k]);
      err := SettleOne(db, results, rows[k].0, rows[k].1);
      if err.Some? {
        if SettleBets(bank, results, ids[..k + 1]).Err? {
          SettleBetsStops(bank, results, ids, k + 1);
        }
        return;
      }
    }
    assert ids[..|rows|] == ids;
    err := None;
  }

  method PayBets(db: Database, results: map<nat, Result>) returns (err: Option<Error>)
    modifies db`wallets, db`ledger, db`bets, db`faults
    ensures Performs(SettleBets(old(db.Money()), results, Where(old(db.bets), PendingOn(results))), db.Money(), err)
    ensures db.Lost() == old(db.Lost()) - LossOf(err)
  {
    hide SettleBets;
    var pending := db.BetsListPendingByOutcomes(results);
    if pending.Err? {
      return Some(pending.error);
    }
    err := PayListed(db, results, pending.value, Where(db.bets, PendingOn(results)));
  }

  lemma SettleBetTouchesOne(bank: Bank, results: map<nat, Result>, b: nat)
    requires b < |bank.bets|
    ensures var r := SettleBet(bank, results, b);
      r.Ok? ==> |r.value.bets| == |bank.bets| && forall i :: 0 <= i < |bank.bets| && i != b ==> r.value.bets[i] == bank.bets[i]
  {
  }

  // ---------- applyPlan and its callers ----------

  method ApplyPlanInTx(db: Database, e: nat, scores: Scores, plan: Plan) returns (err: Option<Error>)
    modifies db`events, db`markets, db`outcomes, db`wallets, db`ledger, db`bets, db`faults, db`sane
    ensures Performs(ApplyPlan(old(db.Snapshot()), e, plan, scores), db.Snapshot(), err)
    ensures db.Lost() == old(db.Lost()) - LossOf(err)
    ensures old(db.AlwaysSane()) ==> db.AlwaysSane()
  {
    hide Database.AlwaysSane, ResultsOf, StatusesOf, Marked, Ruled, SettleBets, AllBelow, Where, PendingOn;
    ghost var was := db.Snapshot();
    var results;
    results, err := MarkMarkets(db, plan.markets);
    if err.Some? {
      return;
    }
    err := RuleOutcomes(db, plan.markets);
    if err.Some? {
      return;
    }
    assert db.Snapshot().bank == was.bank && PlanFits(was.cat, plan);
    err := PayBets(db, results);
    if err.Some? {
      return;
    }
    err := db.EventsUpdateStatusAndScores(e, plan.finalStatus, scores);
  }

  /** A settlement with a given plan: the whole of it or nothing. */
  method ApplyInTx(db: Database, e: nat, scores: Scores, plan: Plan) returns (err: Option<Error>)
    modifies db
    ensures Concludes(ApplyPlan(old(db.Snapshot()), e, plan, scores), old(db.Snapshot()), db.Snapshot(), err)
    ensures db.Lost() == old(db.Lost()) - LossOf(err)
    ensures old(db.AlwaysSane()) ==> db.AlwaysSane()
  {
    hide ApplyPlan, Sane;
    err := db.Begin();
    if err.Some? {
      return;
    }
    err := ApplyPlanInTx(db, e, scores, plan);
    err := db.End(err);
  }

  /** SettleEvent: the plan is built from reads before the transaction. */
  method SettleEvent(db: Database, e: nat, final: EventStatus, scores: Scores) returns (err: Option<Error>)
    modifies db
    ensures Concludes(Settlement.SettleEvent(old(db.Snapshot()), e, final, scores),
                      old(db.Snapshot()), db.Snapshot(), err)
    ensures db.Lost() == old(db.Lost()) - LossOf(err)
    ensures old(db.AlwaysSane()) ==> db.AlwaysSane()
  {
    hide ApplyPlan, Database.AlwaysSane, PlanOf;
    err := db.Send();
    if err.Some? {
      return;
    }
    var plan := BuildPlan(db.Cat(), e, final, scores);
    if plan.Err? {
      return Some(plan.error);
    }
    err := ApplyInTx(db, e, scores, plan.value);
  }

  method SettleCustomEvent(db: Database, e: nat, winner: nat) returns (err: Option<Error>)
    modifies db
    ensures Concludes(Settlement.SettleCustomEvent(old(db.Snapshot()), e, winner),
                      old(db.Snapshot()), db.Snapshot(), err)
    ensures db.Lost() == old(db.Lost()) - LossOf(err)
    ensures old(db.AlwaysSane()) ==> db.AlwaysSane()
  {
    hide ApplyPlan, Database.AlwaysSane, PlanOf;
    err := db.Send();
    if err.Some? {
      return;
    }
    var plan := BuildCustomPlan(db.Cat(), e, winner);
    err := ApplyInTx(db, e, NoScores, plan);
  }
}
