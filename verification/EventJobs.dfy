/** The settlement job an accepted closing of an event starts: the rows its plan writes, in the order of applyPlan. */
module EventJobs {
  import opened Domain
  import opened Plans
  import opened Settlement
  import opened Service
  import opened ReadCommitted

  /** The first loop of applyPlan: every market of the plan. */
  function Marks(markets: seq<MarketPlan>): seq<nat> {
    seq(|markets|, i requires 0 <= i < |markets| => markets[i].marketId)
  }

  /** The second loop: every outcome, market by market. */
  function Rulings(markets: seq<MarketPlan>): seq<OutcomePlan> {
    if |markets| == 0 then [] else Rulings(markets[..|markets| - 1]) + markets[|markets| - 1].outcomes
  }

  function JobOf(c: Catalogue, close: Close): Job {
    var plan := PlanOf(c, close.e, close.final, close.d);
    SettleJob(close.e, Marks(plan.markets), Rulings(plan.markets))
  }

  lemma {:induction false} ResultsInConcat(a: seq<OutcomePlan>, b: seq<OutcomePlan>)
    ensures ResultsIn(a + b) == ResultsIn(a) + ResultsIn(b)
  {
    if |b| == 0 {
      assert a + b == a;
    } else {
      assert (a + b)[..|a + b| - 1] == a + b[..|b| - 1];
      ResultsInConcat(a, b[..|b| - 1]);
    }
  }

  lemma {:induction false} RulingsRule(markets: seq<MarketPlan>)
    ensures ResultsIn(Rulings(markets)) == ResultsOf(markets)
  {
    if |markets| > 0 {
      RulingsRule(markets[..|markets| - 1]);
      ResultsInConcat(Rulings(markets[..|markets| - 1]), markets[|markets| - 1].outcomes);
    }
  }

  /** The job's results are the decision's verdicts on its event, and it marks the event's markets. */
  lemma JobCoversEvent(c: Catalogue, close: Close)
    ensures Results(JobOf(c, close)) == Verdicts(c, close.e, close.d)
    ensures JobOf(c, close).marks == MarketsOf(c, close.e)
  {
    var plan := PlanOf(c, close.e, close.final, close.d);
    RulingsRule(plan.markets);
    PlanCoversEvent(c, close.e, close.final, close.d);
    hide ResultsIn, ResultsOf, Verdicts, OutcomeVerdict, MarketVerdict;
  }

  /** Two jobs with no market and no outcome in common. */
  predicate Apart(a: Job, b: Job)
    requires a.SettleJob? && b.SettleJob?
  {
    (forall m :: m in a.marks ==> m !in b.marks) && (forall o :: o in Results(a) ==> o !in Results(b))
  }

  /** Settlements of different events have no row in common. */
  lemma EventsAreApart(c: Catalogue, x: Close, y: Close)
    requires x.e != y.e
    ensures Apart(JobOf(c, x), JobOf(c, y))
  {
    JobCoversEvent(c, x);
    JobCoversEvent(c, y);
    hide JobOf, OutcomeVerdict, MarketsOf, Results;
    forall m: nat ensures m in MarketsOf(c, x.e) ==> m !in MarketsOf(c, y.e) {
      MarketsOfIs(c, x.e, m);
      MarketsOfIs(c, y.e, m);
    }
  }
}
