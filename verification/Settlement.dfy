/** Applying a settlement plan, and what settlement means for the whole database. */
module Settlement {
  import opened Sums
  import opened Domain
  import opened BankOps
  import opened Plans

  // ---------- applyPlan ----------

  function ResultsIn(ops: seq<OutcomePlan>): map<nat, Result> {
    if |ops| == 0 then map[]
    else ResultsIn(ops[..|ops| - 1])[ops[|ops| - 1].outcomeId := ops[|ops| - 1].result]
  }

  /** The outcome_id -> result map of a plan; a later entry for the same outcome wins. */
  function ResultsOf(markets: seq<MarketPlan>): map<nat, Result> {
    if |markets| == 0 then map[]
    else ResultsOf(markets[..|markets| - 1]) + ResultsIn(markets[|markets| - 1].outcomes)
  }

  function StatusesOf(markets: seq<MarketPlan>): map<nat, MarketStatus> {
    if |markets| == 0 then map[]
    else StatusesOf(markets[..|markets| - 1])[markets[|markets| - 1].marketId := markets[|markets| - 1].status]
  }

  function Marked(markets: seq<Market>, statuses: map<nat, MarketStatus>): seq<Market> {
    seq(|markets|, m requires 0 <= m < |markets| =>
      if m in statuses then markets[m].(status := statuses[m]) else markets[m])
  }

  function Ruled(outcomes: seq<Outcome>, results: map<nat, Result>): seq<Outcome> {
    seq(|outcomes|, o requires 0 <= o < |outcomes| =>
      if o in results then outcomes[o].(result := Some(results[o])) else outcomes[o])
  }

  /** Every row the plan updates exists. */
  predicate PlanFits(c: Catalogue, plan: Plan) {
    AllBelow(StatusesOf(plan.markets), |c.markets|) && AllBelow(ResultsOf(plan.markets), |c.outcomes|)
  }

  predicate AllBelow<V>(rows: map<nat, V>, n: nat) {
    forall id: nat :: id in rows ==> id < n
  }

  /** applyPlan: market statuses, outcome results, every pending bet on them, then the event row. */
  function ApplyPlan(db: Db, e: nat, plan: Plan, scores: Scores): Try<Db> {
    if !PlanFits(db.cat, plan) then Err(ErrNotFound)
    else
      var results := ResultsOf(plan.markets);
      match SettleBets(db.bank, results, Where(db.bank.bets, PendingOn(results)))
      case Err(error) => Err(error)
      case Ok(bank) =>
        if e >= |db.cat.events| then Err(ErrNotFound)
        else
          Ok(Db(Catalogue(db.cat.events[e := db.cat.events[e].(status := plan.finalStatus, scores := scores)],
                          Marked(db.cat.markets, StatusesOf(plan.markets)),
                          Ruled(db.cat.outcomes, results)),
                bank))
  }

  /** SettlementService.SettleEvent. */
  function SettleEvent(db: Db, e: nat, final: EventStatus, scores: Scores): Try<Db> {
    match PlanFor(db.cat, e, final, scores)
    case Err(error) => Err(error)
    case Ok(plan) => ApplyPlan(db, e, plan, scores)
  }

  /** SettlementService.SettleCustomEvent. */
  function SettleCustomEvent(db: Db, e: nat, winner: nat): Try<Db> {
    ApplyPlan(db, e, PlanOf(db.cat, e, EventSettled, ByWinner(winner)), NoScores)
  }

  /** One settlement of event e: the three service calls differ only in final status, decision and scores. */
  function Settle(db: Db, e: nat, final: EventStatus, d: Decision, scores: Scores): Try<Db> {
    ApplyPlan(db, e, PlanOf(db.cat, e, final, d), scores)
  }

  // ---------- which rows a plan of an event covers ----------

  predicate Affects(c: Catalogue, e: nat, o: nat) {
    o < |c.outcomes| && c.outcomes[o].marketId < |c.markets| && c.markets[c.outcomes[o].marketId].eventId == e
  }

  /** The result the decision gives every outcome of the event. */
  function Verdicts(c: Catalogue, e: nat, d: Decision): map<nat, Result> {
    map o: nat | o < |c.outcomes| && Affects(c, e, o) :: OutcomeVerdict(c, d, o)
  }

  function VerdictStatuses(c: Catalogue, e: nat, d: Decision): map<nat, MarketStatus> {
    map m: nat | m < |c.markets| && c.markets[m].eventId == e :: MarketVerdict(c, d, m)
  }

  lemma {:induction false} ResultsInEntries(ops: seq<OutcomePlan>)
    ensures forall o :: o in ResultsIn(ops) <==> exists j :: 0 <= j < |ops| && ops[j].outcomeId == o
    ensures forall o :: o in ResultsIn(ops) ==> OutcomePlan(o, ResultsIn(ops)[o]) in ops
  {
    if |ops| > 0 {
      var front := ops[..|ops| - 1];
      ResultsInEntries(front);
      forall o | exists j :: 0 <= j < |ops| && ops[j].outcomeId == o
        ensures o in ResultsIn(ops)
      {
        var j :| 0 <= j < |ops| && ops[j].outcomeId == o;
        assert j < |front| ==> front[j].outcomeId == o;
      }
    }
  }

  lemma OutcomesOfIs(c: Catalogue, m: nat, o: nat)
    ensures o in OutcomesOf(c, m) <==> o < |c.outcomes| && c.outcomes[o].marketId == m
  {
    if o < |c.outcomes| && c.outcomes[o].marketId == m {
      assert InMarket(m)(c.outcomes[o]);
    }
  }

  lemma ResultsInWholeMarket(c: Catalogue, d: Decision, m: nat)
    requires m < |c.markets|
    ensures var r := ResultsIn(PlannedMarket(c, d, m).outcomes);
      && (forall o: nat :: o in r <==> o < |c.outcomes| && c.outcomes[o].marketId == m)
      && (forall o: nat :: o in r ==> r[o] == OutcomeVerdict(c, d, o))
  {
    hide OutcomeVerdict, MarketVerdict, ResultsIn;
    var ids, ops := OutcomesOf(c, m), PlannedMarket(c, d, m).outcomes;
    assert |ops| == |ids| && forall j :: 0 <= j < |ids| ==> ops[j] == OutcomePlan(ids[j], OutcomeVerdict(c, d, ids[j]));
    hide PlannedMarket, OutcomesOf;
    ResultsInEntries(ops);
    forall o: nat ensures o in ResultsIn(ops) <==> o < |c.outcomes| && c.outcomes[o].marketId == m {
      OutcomesOfIs(c, m, o);
      if o in ids {
        var j :| 0 <= j < |ids| && ids[j] == o;
        assert ops[j].outcomeId == o;
      }
    }
  }

  lemma {:induction false} PlannedResults(c: Catalogue, d: Decision, ids: seq<nat>)
    requires forall i :: 0 <= i < |ids| ==> ids[i] < |c.markets|
    ensures var r := ResultsOf(PlannedMarkets(c, d, ids));
      && (forall o: nat :: o in r <==> o < |c.outcomes| && c.outcomes[o].marketId in ids)
      && (forall o: nat :: o in r ==> r[o] == OutcomeVerdict(c, d, o))
  {
    hide OutcomeVerdict, MarketVerdict, PlannedMarket, ResultsIn;
    if |ids| > 0 {
      var front, last := ids[..|ids| - 1], ids[|ids| - 1];
      var plans := PlannedMarkets(c, d, ids);
      assert plans[..|ids| - 1] == PlannedMarkets(c, d, front) && plans[|ids| - 1] == PlannedMarket(c, d, last);
      assert ids == front + [last];
      hide PlannedMarkets;
      PlannedResults(c, d, front);
      ResultsInWholeMarket(c, d, last);
      assert ResultsOf(plans) == ResultsOf(PlannedMarkets(c, d, front)) + ResultsIn(PlannedMarket(c, d, last).outcomes);
    }
  }

  lemma {:induction false} PlannedStatuses(c: Catalogue, d: Decision, ids: seq<nat>)
    requires forall i :: 0 <= i < |ids| ==> ids[i] < |c.markets|
    ensures var s := StatusesOf(PlannedMarkets(c, d, ids));
      && (forall m: nat :: m in s <==> m in ids)
      && (forall m: nat :: m in s ==> s[m] == MarketVerdict(c, d, m))
  {
    hide OutcomeVerdict, MarketVerdict;
    if |ids| > 0 {
      PlannedStatuses(c, d, ids[..|ids| - 1]);
      assert PlannedMarkets(c, d, ids)[..|ids| - 1] == PlannedMarkets(c, d, ids[..|ids| - 1]);
      assert ids == ids[..|ids| - 1] + [ids[|ids| - 1]];
    }
  }

  lemma MarketsOfIs(c: Catalogue, e: nat, m: nat)
    ensures m in MarketsOf(c, e) <==> m < |c.markets| && c.markets[m].eventId == e
  {
    if m < |c.markets| && c.markets[m].eventId == e {
      assert OfEvent(e)(c.markets[m]);
    }
  }

  lemma PlanResultsAre(c: Catalogue, e: nat, d: Decision)
    ensures ResultsOf(PlannedMarkets(c, d, MarketsOf(c, e))) == Verdicts(c, e, d)
  {
    var ids := MarketsOf(c, e);
    PlannedResults(c, d, ids);
    hide OutcomeVerdict, ResultsOf, PlannedMarkets, MarketsOf;
    forall o: nat | o < |c.outcomes| ensures c.outcomes[o].marketId in ids <==> Affects(c, e, o) {
      MarketsOfIs(c, e, c.outcomes[o].marketId);
    }
  }

  lemma PlanStatusesAre(c: Catalogue, e: nat, d: Decision)
    ensures StatusesOf(PlannedMarkets(c, d, MarketsOf(c, e))) == VerdictStatuses(c, e, d)
  {
    var ids := MarketsOf(c, e);
    PlannedStatuses(c, d, ids);
    hide MarketVerdict, StatusesOf, PlannedMarkets, MarketsOf;
    forall m: nat ensures m in ids <==> m < |c.markets| && c.markets[m].eventId == e {
      MarketsOfIs(c, e, m);
    }
  }

  /** The plan covers every outcome and market of its event, and no others. */
  lemma PlanCoversEvent(c: Catalogue, e: nat, final: EventStatus, d: Decision)
    ensures var plan := PlanOf(c, e, final, d);
      ResultsOf(plan.markets) == Verdicts(c, e, d) && StatusesOf(plan.markets) == VerdictStatuses(c, e, d)
    ensures PlanFits(c, PlanOf(c, e, final, d)) && PlanOf(c, e, final, d).finalStatus == final
  {
    hide OutcomeVerdict, MarketVerdict, ResultsOf, StatusesOf, PlannedMarkets, MarketsOf;
    PlanResultsAre(c, e, d);
    PlanStatusesAre(c, e, d);
  }

  // ---------- closed form ----------

  /** The catalogue after event e is closed by decision d. */
  function Closed(c: Catalogue, e: nat, final: EventStatus, d: Decision, scores: Scores): Catalogue
    requires e < |c.events|
  {
    Catalogue(c.events[e := c.events[e].(status := final, scores := scores)],
              Marked(c.markets, VerdictStatuses(c, e, d)),
              Ruled(c.outcomes, Verdicts(c, e, d)))
  }

  lemma SettleUnfolds(db: Db, e: nat, final: EventStatus, d: Decision, scores: Scores, bank: Bank)
    requires e < |db.cat.events|
    requires var v := Verdicts(db.cat, e, d); SettleBets(db.bank, v, Where(db.bank.bets, PendingOn(v))) == Ok(bank)
    ensures Settle(db, e, final, d, scores) == Ok(Db(Closed(db.cat, e, final, d, scores), bank))
  {
    hide OutcomeVerdict, MarketVerdict, Verdicts, VerdictStatuses, ResultsOf, StatusesOf, Marked, Ruled, SettleBets, PlanFits;
    PlanCoversEvent(db.cat, e, final, d);
  }

  /**
   * Settlement never fails on an existing event, closes exactly that event's markets and outcomes,
   * decides exactly the pending bets on them, and credits each user exactly what those bets owe.
   */
  lemma SettleClosedForm(db: Db, e: nat, final: EventStatus, d: Decision, scores: Scores)
    requires SoundBets(db.bank) && e < |db.cat.events|
    ensures var r := Settle(db, e, final, d, scores);
            var verdicts := Verdicts(db.cat, e, d);
      && r.Ok? && SoundBets(r.value.bank)
      && r.value.cat == Closed(db.cat, e, final, d, scores)
      && r.value.bank.users == db.bank.users && r.value.bank.identities == db.bank.identities
      && r.value.bank.bets == Resolved(db.bank.bets, verdicts)
      && r.value.bank.wallets.Keys == db.bank.wallets.Keys
      && forall u :: u in db.bank.wallets ==>
           r.value.bank.wallets[u] == db.bank.wallets[u] + Total(db.bank.bets, OwedTo(verdicts, u))
  {
    hide OutcomeVerdict, MarketVerdict, Verdicts, VerdictStatuses, Settle, SettleBets, Closed, SoundBets;
    var verdicts := Verdicts(db.cat, e, d);
    var ids := Where(db.bank.bets, PendingOn(verdicts));
    SettlementClosedForm(db.bank, verdicts, ids);
    SettleUnfolds(db, e, final, d, scores, SettleBets(db.bank, verdicts, ids).value);
  }

  /** The branch for a bet without a result is dead: every listed bet's outcome has one. */
  lemma EveryListedBetHasAResult(bets: seq<Bet>, results: map<nat, Result>, b: nat)
    requires b in Where(bets, PendingOn(results))
    ensures b < |bets| && bets[b].outcomeId in results
  {
    var k :| 0 <= k < |Where(bets, PendingOn(results))| && Where(bets, PendingOn(results))[k] == b;
  }

  // ---------- idempotence ----------

  /** The columns a verdict reads. */
  ghost predicate SameShape(c: Catalogue, c': Catalogue) {
    && |c.markets| == |c'.markets| && |c.outcomes| == |c'.outcomes|
    && (forall m :: 0 <= m < |c.markets| ==>
          c'.markets[m] == c.markets[m].(status := c'.markets[m].status))
    && (forall o :: 0 <= o < |c.outcomes| ==>
          c'.outcomes[o] == c.outcomes[o].(result := c'.outcomes[o].result))
  }

  lemma SameShapeSameVerdict(c: Catalogue, c': Catalogue, d: Decision, o: nat)
    requires SameShape(c, c') && o < |c.outcomes| && c.outcomes[o].marketId < |c.markets|
    ensures OutcomeVerdict(c, d, o) == OutcomeVerdict(c', d, o)
  {
  }

  lemma SameShapeSameVerdicts(c: Catalogue, c': Catalogue, e: nat, d: Decision)
    requires SameShape(c, c')
    ensures Verdicts(c', e, d) == Verdicts(c, e, d) && VerdictStatuses(c', e, d) == VerdictStatuses(c, e, d)
  {
    hide OutcomeVerdict;
    forall o: nat | o < |c.outcomes| && Affects(c, e, o)
      ensures OutcomeVerdict(c, d, o) == OutcomeVerdict(c', d, o)
    {
      SameShapeSameVerdict(c, c', d, o);
    }
  }

  /** Closing an event changes no verdict of any later decision on any event. */
  lemma VerdictsIgnoreStatus(c: Catalogue, e: nat, final: EventStatus, d: Decision, scores: Scores, e': nat, d': Decision)
    requires e < |c.events|
    ensures var c1 := Closed(c, e, final, d, scores);
      Verdicts(c1, e', d') == Verdicts(c, e', d') && VerdictStatuses(c1, e', d') == VerdictStatuses(c, e', d')
  {
    hide OutcomeVerdict, MarketVerdict, Verdicts, VerdictStatuses;
    SameShapeSameVerdicts(c, Closed(c, e, final, d, scores), e', d');
  }

  ghost predicate NothingPending(bets: seq<Bet>, results: map<nat, Result>) {
    forall b :: 0 <= b < |bets| ==> !PendingOn(results)(bets[b])
  }

  lemma NothingPendingNothingDone(bank: Bank, results: map<nat, Result>)
    requires NothingPending(bank.bets, results)
    ensures SettleBets(bank, results, Where(bank.bets, PendingOn(results))) == Ok(bank)
  {
    WhereNone(bank.bets, PendingOn(results));
  }

  lemma NonePending(bets: seq<Bet>, verdicts: map<nat, Result>, others: map<nat, Result>)
    requires verdicts.Keys == others.Keys
    ensures NothingPending(Resolved(bets, verdicts), others)
  {
  }

  /** A decision covers the outcomes of its event, whatever it decides. */
  lemma SameKeys(c: Catalogue, e: nat, d: Decision, d': Decision)
    ensures Verdicts(c, e, d).Keys == Verdicts(c, e, d').Keys
  {
  }

  /** After a settlement any other settlement of the same event leaves the whole bank alone. */
  lemma ResettlingMovesNoMoney(db: Db, e: nat, final: EventStatus, d: Decision, scores: Scores,
                               final': EventStatus, d': Decision, scores': Scores)
    requires SoundBets(db.bank) && e < |db.cat.events|
    ensures Settle(db, e, final, d, scores).Ok?
    ensures var once := Settle(db, e, final, d, scores).value;
            var again := Settle(once, e, final', d', scores');
      again.Ok? && again.value.bank == once.bank && again.value.cat == Closed(once.cat, e, final', d', scores')
  {
    hide OutcomeVerdict, MarketVerdict, Verdicts, VerdictStatuses, Marked, Ruled, Settle, SettleBets, SoundBets, Resolved;
    SettleClosedForm(db, e, final, d, scores);
    var once := Settle(db, e, final, d, scores).value;
    VerdictsIgnoreStatus(db.cat, e, final, d, scores, e, d');
    assert Verdicts(db.cat, e, d).Keys == Verdicts(db.cat, e, d').Keys by {
      SameKeys(db.cat, e, d, d');
    }
    NonePending(db.bank.bets, Verdicts(db.cat, e, d), Verdicts(db.cat, e, d'));
    NothingPendingNothingDone(once.bank, Verdicts(once.cat, e, d'));
    SettleUnfolds(once, e, final', d', scores', once.bank);
  }

  /** Repeating a settlement with the same arguments leaves the whole database unchanged. */
  lemma SettlementIsIdempotent(db: Db, e: nat, final: EventStatus, scores: Scores)
    requires SoundBets(db.bank) && SettleEvent(db, e, final, scores).Ok?
    ensures SettleEvent(SettleEvent(db, e, final, scores).value, e, final, scores) == SettleEvent(db, e, final, scores)
  {
    var d := if final == EventCancelled then Cancellation
             else ByScore(ParseScores(scores).value.0, ParseScores(scores).value.1);
    SettleTwice(db, e, final, d, scores);
  }

  lemma CustomSettlementIsIdempotent(db: Db, e: nat, winner: nat)
    requires SoundBets(db.bank) && SettleCustomEvent(db, e, winner).Ok?
    ensures SettleCustomEvent(SettleCustomEvent(db, e, winner).value, e, winner) == SettleCustomEvent(db, e, winner)
  {
    SettleTwice(db, e, EventSettled, ByWinner(winner), NoScores);
  }

  lemma SettleTwice(db: Db, e: nat, final: EventStatus, d: Decision, scores: Scores)
    requires SoundBets(db.bank) && Settle(db, e, final, d, scores).Ok?
    ensures var once := Settle(db, e, final, d, scores);
      Settle(once.value, e, final, d, scores) == once
  {
    assert e < |db.cat.events|;
    hide OutcomeVerdict, MarketVerdict, Verdicts, VerdictStatuses, ApplyPlan;
    SettleClosedForm(db, e, final, d, scores);
    ResettlingMovesNoMoney(db, e, final, d, scores, final, d, scores);
    VerdictsIgnoreStatus(db.cat, e, final, d, scores, e, d);
    var once := Settle(db, e, final, d, scores).value;
    var again := Closed(once.cat, e, final, d, scores);
    assert again.events == once.cat.events;
    assert again.markets == once.cat.markets;
    assert again.outcomes == once.cat.outcomes;
  }

  // ---------- two different events ----------

  lemma ClosingCommutes(c: Catalogue, e: nat, final: EventStatus, d: Decision, scores: Scores,
                        e': nat, final': EventStatus, d': Decision, scores': Scores)
    requires e < |c.events| && e' < |c.events| && e != e'
    ensures Closed(Closed(c, e, final, d, scores), e', final', d', scores')
         == Closed(Closed(c, e', final', d', scores'), e, final, d, scores)
  {
    hide OutcomeVerdict, MarketVerdict;
    var one, two := Closed(c, e, final, d, scores), Closed(c, e', final', d', scores');
    VerdictsIgnoreStatus(c, e, final, d, scores, e', d');
    VerdictsIgnoreStatus(c, e', final', d', scores', e, d);
    var there, back := Closed(one, e', final', d', scores'), Closed(two, e, final, d, scores);
    assert there.events == back.events;
    assert there.markets == back.markets;
    assert there.outcomes == back.outcomes;
  }

  lemma ResolvingCommutes(bets: seq<Bet>, c: Catalogue, e: nat, d: Decision, e': nat, d': Decision)
    requires e != e'
    ensures var v, v' := Verdicts(c, e, d), Verdicts(c, e', d');
      Resolved(Resolved(bets, v), v') == Resolved(Resolved(bets, v'), v)
  {
    hide OutcomeVerdict;
  }

  /** Settling two events in either order gives the same catalogue, bets and balances. */
  lemma SettlementsCommute(db: Db, e: nat, final: EventStatus, d: Decision, scores: Scores,
                           e': nat, final': EventStatus, d': Decision, scores': Scores)
    requires SoundBets(db.bank) && e < |db.cat.events| && e' < |db.cat.events| && e != e'
    ensures Settle(db, e, final, d, scores).Ok? && Settle(db, e', final', d', scores').Ok?
    ensures var there := Settle(Settle(db, e, final, d, scores).value, e', final', d', scores');
            var back := Settle(Settle(db, e', final', d', scores').value, e, final, d, scores);
      && there.Ok? && back.Ok?
      && there.value.cat == back.value.cat
      && there.value.bank.bets == back.value.bank.bets
      && there.value.bank.wallets == back.value.bank.wallets
  {
    hide OutcomeVerdict, MarketVerdict, Settle, SoundBets, Verdicts, VerdictStatuses, Closed;
    TwoSettlements(db, e, final, d, scores, e', final', d', scores');
    TwoSettlements(db, e', final', d', scores', e, final, d, scores);
    var there := Settle(Settle(db, e, final, d, scores).value, e', final', d', scores').value;
    var back := Settle(Settle(db, e', final', d', scores').value, e, final, d, scores).value;
    ClosingCommutes(db.cat, e, final, d, scores, e', final', d', scores');
    ResolvingCommutes(db.bank.bets, db.cat, e, d, e', d');
    assert there.bank.wallets == back.bank.wallets;
  }

  lemma TwoSettlements(db: Db, e: nat, final: EventStatus, d: Decision, scores: Scores,
                       e': nat, final': EventStatus, d': Decision, scores': Scores)
    requires SoundBets(db.bank) && e < |db.cat.events| && e' < |db.cat.events| && e != e'
    ensures Settle(db, e, final, d, scores).Ok?
    ensures var r := Settle(Settle(db, e, final, d, scores).value, e', final', d', scores');
            var first, second := Verdicts(db.cat, e, d), Verdicts(db.cat, e', d');
      && r.Ok?
      && r.value.cat == Closed(Closed(db.cat, e, final, d, scores), e', final', d', scores')
      && Verdicts(Closed(db.cat, e, final, d, scores), e', d') == second
      && VerdictStatuses(Closed(db.cat, e, final, d, scores), e', d') == VerdictStatuses(db.cat, e', d')
      && r.value.bank.bets == Resolved(Resolved(db.bank.bets, first), second)
      && r.value.bank.wallets.Keys == db.bank.wallets.Keys
      && forall u :: u in db.bank.wallets ==>
           r.value.bank.wallets[u]
           == db.bank.wallets[u] + Total(db.bank.bets, OwedTo(first, u)) + Total(db.bank.bets, OwedTo(second, u))
  {
    hide OutcomeVerdict, MarketVerdict, ApplyPlan, VerdictStatuses, SoundBets;
    SettleClosedForm(db, e, final, d, scores);
    var mid := Settle(db, e, final, d, scores).value;
    SettleClosedForm(mid, e', final', d', scores');
    VerdictsIgnoreStatus(db.cat, e, final, d, scores, e', d');
    var second := Verdicts(db.cat, e', d');
    forall u | u in db.bank.wallets
      ensures Total(mid.bank.bets, OwedTo(second, u)) == Total(db.bank.bets, OwedTo(second, u))
    {
      TotalPointwise(mid.bank.bets, db.bank.bets, OwedTo(second, u), OwedTo(second, u));
    }
  }
}
