/** Settlement plans: what each outcome and market of an event becomes, before anything is written. */
module Plans {
  import opened Sums
  import opened Domain

  datatype OutcomePlan = OutcomePlan(outcomeId: nat, result: Result)
  datatype MarketPlan = MarketPlan(marketId: nat, status: MarketStatus, outcomes: seq<OutcomePlan>)
  datatype Plan = Plan(finalStatus: EventStatus, markets: seq<MarketPlan>)

  /** Why an event is being closed: cancelled, decided by its score, or by the outcome an admin names. */
  datatype Decision = Cancellation | ByScore(home: int, away: int) | ByWinner(outcomeId: nat)

  function OfEvent(e: nat): Market -> bool { (m: Market) => m.eventId == e }

  function InMarket(m: nat): Outcome -> bool { (o: Outcome) => o.marketId == m }

  /** markets.GetByEvent and outcomes.GetByMarket, in id order. */
  function MarketsOf(c: Catalogue, e: nat): seq<nat> { Where(c.markets, OfEvent(e)) }

  function OutcomesOf(c: Catalogue, m: nat): seq<nat> { Where(c.outcomes, InMarket(m)) }

  // ---------- verdicts ----------

  function ParseScores(raw: Scores): Option<(int, int)> {
    match raw
    case Decoded(home, away) => if home < 0 || away < 0 then None else Some((home, away))
    case _ => None
  }

  function SettleML(home: int, away: int): OutcomeCode {
    if home > away then OutcomeHome else if away > home then OutcomeAway else OutcomeDraw
  }

  /** (overWon, isPush) for a line in hundredths. */
  function SettleTotals(home: int, away: int, line: int): (bool, bool) {
    var total := 100 * (home + away);
    (total > line, total == line)
  }

  function MLVerdict(code: OutcomeCode, home: int, away: int): Result {
    if code == SettleML(home, away) then ResultWon else ResultLost
  }

  function TotalsVerdict(code: OutcomeCode, home: int, away: int, line: Option<int>): Result {
    var (overWon, isPush) := if line.Some? then SettleTotals(home, away, line.value) else (false, false);
    if isPush then ResultVoid
    else
      match code
      case OutcomeOver => if overWon then ResultWon else ResultLost
      case OutcomeUnder => if overWon then ResultLost else ResultWon
      case _ => ResultLost
  }

  predicate HasWinner(c: Catalogue, m: nat, winner: nat) {
    winner < |c.outcomes| && c.outcomes[winner].marketId == m
  }

  function OutcomeVerdict(c: Catalogue, d: Decision, o: nat): Result
    requires o < |c.outcomes| && c.outcomes[o].marketId < |c.markets|
  {
    var outcome := c.outcomes[o];
    var market := c.markets[outcome.marketId];
    match d
    case Cancellation => ResultVoid
    case ByScore(home, away) =>
      (match market.kind
       case MarketML => MLVerdict(outcome.code, home, away)
       case MarketTotals => TotalsVerdict(outcome.code, home, away, market.line)
       case MarketCustom => ResultVoid)
    case ByWinner(winner) =>
      if !HasWinner(c, outcome.marketId, winner) then ResultVoid
      else if o == winner then ResultWon else ResultLost
  }

  function MarketVerdict(c: Catalogue, d: Decision, m: nat): MarketStatus
    requires m < |c.markets|
  {
    match d
    case Cancellation => MarketVoid
    case ByScore(_, _) => if c.markets[m].kind == MarketCustom then MarketVoid else MarketSettled
    case ByWinner(winner) => if HasWinner(c, m, winner) then MarketSettled else MarketVoid
  }

  // ---------- plans as values ----------

  function PlannedMarket(c: Catalogue, d: Decision, m: nat): MarketPlan
    requires m < |c.markets|
  {
    var ocs := OutcomesOf(c, m);
    MarketPlan(m, MarketVerdict(c, d, m),
               seq(|ocs|, i requires 0 <= i < |ocs| => OutcomePlan(ocs[i], OutcomeVerdict(c, d, ocs[i]))))
  }

  function PlannedMarkets(c: Catalogue, d: Decision, ids: seq<nat>): (plans: seq<MarketPlan>)
    requires forall i :: 0 <= i < |ids| ==> ids[i] < |c.markets|
    ensures |plans| == |ids|
  {
    seq(|ids|, i requires 0 <= i < |ids| => PlannedMarket(c, d, ids[i]))
  }

  lemma PlannedAppend(c: Catalogue, d: Decision, ids: seq<nat>, i: nat)
    requires i < |ids| && forall k :: 0 <= k < |ids| ==> ids[k] < |c.markets|
    ensures PlannedMarkets(c, d, ids[..i + 1]) == PlannedMarkets(c, d, ids[..i]) + [PlannedMarket(c, d, ids[i])]
  {
    hide PlannedMarket;
  }

  function PlanOf(c: Catalogue, e: nat, final: EventStatus, d: Decision): Plan {
    Plan(final, PlannedMarkets(c, d, MarketsOf(c, e)))
  }

  /** buildPlan: refuses a status that is not final and a settled event without a usable score. */
  function PlanFor(c: Catalogue, e: nat, final: EventStatus, scores: Scores): Try<Plan> {
    if final == EventCancelled then Ok(PlanOf(c, e, final, Cancellation))
    else if final != EventSettled then Err(ErrMarketClosed)
    else
      match ParseScores(scores)
      case None => Err(ErrScoresUnavailable)
      case Some((home, away)) => Ok(PlanOf(c, e, final, ByScore(home, away)))
  }

  // ---------- the loops that build plans ----------

  method BuildPlan(c: Catalogue, e: nat, final: EventStatus, scores: Scores) returns (r: Try<Plan>)
    ensures r == PlanFor(c, e, final, scores)
  {
    hide PlannedMarket, PlannedMarkets;
    var markets: seq<MarketPlan> := [];
    var ids := MarketsOf(c, e);
    if final == EventCancelled {
      for i := 0 to |ids|
        invariant markets == PlannedMarkets(c, Cancellation, ids[..i])
      {
        var mp := VoidMarket(c, Cancellation, ids[i]);
        PlannedAppend(c, Cancellation, ids, i);
        markets := markets + [mp];
      }
      assert ids[..|ids|] == ids;
      return Ok(Plan(final, markets));
    }
    if final != EventSettled {
      return Err(ErrMarketClosed);
    }
    var parsed := ParseScores(scores);
    if parsed == None {
      return Err(ErrScoresUnavailable);
    }
    var (home, away) := parsed.value;
    for i := 0 to |ids|
      invariant markets == PlannedMarkets(c, ByScore(home, away), ids[..i])
    {
      var mp := PlanScoredMarket(c, ids[i], home, away);
      PlannedAppend(c, ByScore(home, away), ids, i);
      markets := markets + [mp];
    }
    assert ids[..|ids|] == ids;
    return Ok(Plan(final, markets));
  }

  method PlanScoredMarket(c: Catalogue, m: nat, home: int, away: int) returns (mp: MarketPlan)
    requires m < |c.markets|
    ensures mp == PlannedMarket(c, ByScore(home, away), m)
  {
    var ocs := OutcomesOf(c, m);
    match c.markets[m].kind {
      case MarketML =>
        var outcomes := ApplyMLPlan(c, m, ocs, home, away);
        return MarketPlan(m, MarketSettled, outcomes);
      case MarketTotals =>
        var outcomes := ApplyTotalsPlan(c, m, ocs, home, away, c.markets[m].line);
        return MarketPlan(m, MarketSettled, outcomes);
      case MarketCustom =>
        mp := VoidMarket(c, ByScore(home, away), m);
    }
  }

  method VoidMarket(c: Catalogue, ghost d: Decision, m: nat) returns (mp: MarketPlan)
    requires m < |c.markets| && (d.Cancellation? || (d.ByScore? && c.markets[m].kind == MarketCustom))
    ensures mp == PlannedMarket(c, d, m)
  {
    var ocs := OutcomesOf(c, m);
    var outcomes: seq<OutcomePlan> := [];
    for j := 0 to |ocs|
      invariant outcomes == PlannedMarket(c, d, m).outcomes[..j]
    {
      outcomes := outcomes + [OutcomePlan(ocs[j], ResultVoid)];
    }
    return MarketPlan(m, MarketVoid, outcomes);
  }

  method ApplyMLPlan(c: Catalogue, m: nat, ocs: seq<nat>, home: int, away: int) returns (outcomes: seq<OutcomePlan>)
    requires m < |c.markets| && c.markets[m].kind == MarketML && ocs == OutcomesOf(c, m)
    ensures outcomes == PlannedMarket(c, ByScore(home, away), m).outcomes
  {
    var winner := SettleML(home, away);
    outcomes := [];
    for j := 0 to |ocs|
      invariant outcomes == PlannedMarket(c, ByScore(home, away), m).outcomes[..j]
    {
      var res := ResultLost;
      if c.outcomes[ocs[j]].code == winner {
        res := ResultWon;
      }
      outcomes := outcomes + [OutcomePlan(ocs[j], res)];
    }
  }

  method ApplyTotalsPlan(c: Catalogue, m: nat, ocs: seq<nat>, home: int, away: int, line: Option<int>)
    returns (outcomes: seq<OutcomePlan>)
    requires m < |c.markets| && c.markets[m].kind == MarketTotals && c.markets[m].line == line
    requires ocs == OutcomesOf(c, m)
    ensures outcomes == PlannedMarket(c, ByScore(home, away), m).outcomes
  {
    var overWon, isPush := false, false;
    if line.Some? {
      var verdict := SettleTotals(home, away, line.value);
      overWon, isPush := verdict.0, verdict.1;
    }
    outcomes := [];
    for j := 0 to |ocs|
      invariant outcomes == PlannedMarket(c, ByScore(home, away), m).outcomes[..j]
    {
      var code, res := c.outcomes[ocs[j]].code, ResultLost;
      if isPush {
        res := ResultVoid;
      } else if code == OutcomeOver {
        res := if overWon then ResultWon else ResultLost;
      } else if code == OutcomeUnder {
        res := if overWon then ResultLost else ResultWon;
      }
      outcomes := outcomes + [OutcomePlan(ocs[j], res)];
    }
  }

  method BuildCustomPlan(c: Catalogue, e: nat, winner: nat) returns (plan: Plan)
    ensures plan == PlanOf(c, e, EventSettled, ByWinner(winner))
  {
    hide PlannedMarket, PlannedMarkets;
    var markets: seq<MarketPlan> := [];
    var ids := MarketsOf(c, e);
    for i := 0 to |ids|
      invariant markets == PlannedMarkets(c, ByWinner(winner), ids[..i])
    {
      var mp := PlanCustomMarket(c, ids[i], winner);
      PlannedAppend(c, ByWinner(winner), ids, i);
      markets := markets + [mp];
    }
    assert ids[..|ids|] == ids;
    return Plan(EventSettled, markets);
  }

  method PlanCustomMarket(c: Catalogue, m: nat, winner: nat) returns (mp: MarketPlan)
    requires m < |c.markets|
    ensures mp == PlannedMarket(c, ByWinner(winner), m)
  {
    var ocs := OutcomesOf(c, m);
    var hasWinner := false;
    for j := 0 to |ocs|
      invariant hasWinner <==> winner in ocs[..j]
    {
      if ocs[j] == winner {
        hasWinner := true;
      }
    }
    assert ocs[..|ocs|] == ocs;
    assert hasWinner <==> HasWinner(c, m, winner) by {
      assert HasWinner(c, m, winner) ==> InMarket(m)(c.outcomes[winner]);
    }
    ghost var planned := PlannedMarket(c, ByWinner(winner), m).outcomes;
    var outcomes: seq<OutcomePlan> := [];
    for j := 0 to |ocs|
      invariant outcomes == planned[..j]
    {
      assert planned[j] == OutcomePlan(ocs[j], OutcomeVerdict(c, ByWinner(winner), ocs[j]));
      var res := if !hasWinner then ResultVoid else if ocs[j] == winner then ResultWon else ResultLost;
      outcomes := outcomes + [OutcomePlan(ocs[j], res)];
    }
    return MarketPlan(m, if hasWinner then MarketSettled else MarketVoid, outcomes);
  }

  // ---------- what a plan decides ----------

  /** The schema's unique index on (market_id, code). */
  ghost predicate UniqueCodes(c: Catalogue) {
    forall o, o' ::
      (0 <= o < |c.outcomes| && 0 <= o' < |c.outcomes|
       && c.outcomes[o].marketId == c.outcomes[o'].marketId && c.outcomes[o].code == c.outcomes[o'].code)
      ==> o == o'
  }

  /** No plan of any kind lets two outcomes of one market win. */
  lemma AtMostOneWinner(c: Catalogue, d: Decision, o: nat, o': nat)
    requires UniqueCodes(c) && o < |c.outcomes| && o' < |c.outcomes|
    requires c.outcomes[o].marketId == c.outcomes[o'].marketId < |c.markets|
    requires OutcomeVerdict(c, d, o) == OutcomeVerdict(c, d, o') == ResultWon
    ensures o == o'
  {
    assert c.outcomes[o].code == c.outcomes[o'].code || d.ByWinner?;
  }

  /** A totals market with a line is decided completely: both sides void on a push, else exactly one side wins. */
  lemma TotalsAreDecisive(c: Catalogue, home: int, away: int, over: nat, under: nat)
    requires over < |c.outcomes| && under < |c.outcomes|
    requires c.outcomes[over].code == OutcomeOver && c.outcomes[under].code == OutcomeUnder
    requires c.outcomes[over].marketId == c.outcomes[under].marketId < |c.markets|
    requires var m := c.markets[c.outcomes[over].marketId]; m.kind == MarketTotals && m.line.Some?
    ensures var line := c.markets[c.outcomes[over].marketId].line.value;
            var pair := (OutcomeVerdict(c, ByScore(home, away), over), OutcomeVerdict(c, ByScore(home, away), under));
      && (100 * home + 100 * away == line <==> pair == (ResultVoid, ResultVoid))
      && (100 * home + 100 * away > line <==> pair == (ResultWon, ResultLost))
      && (100 * home + 100 * away < line <==> pair == (ResultLost, ResultWon))
  {
  }
}
