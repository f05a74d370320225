/** Concrete runs of the odds feed: a withdrawn draw that stays on offer, and a line that moves under a bet. */
module FeedExamples {
  import opened Sums
  import opened Domain
  import opened BankOps
  import opened Plans
  import opened CatalogueOps
  import opened OddsSync
  import opened Service
  import opened QuoteEffects
  import opened LineDrift
  import opened Stranding
  import Lifecycle
  import Runs

  // ---------- the line moves ----------

  function At(line: real): seq<ApiMarket> {
    [ApiMarket(ApiTotals, [OddsLine(Some(line), None, None, None, Some(1.9), Some(1.9))])]
  }

  const OVER := Outcome(1, OutcomeOver, 1900, None)
  const UNDER := Outcome(1, OutcomeUnder, 1900, None)
  const EVEN := [(OutcomeOver, 1.9), (OutcomeUnder, 1.9)]

  /** The fixture offered at a totals line. */
  function Lined(line: int): Catalogue {
    Catalogue([FIXTURE_ROW], [Market(0, MarketML, None, MarketSuspended), Market(0, MarketTotals, Some(line), MarketOpen)],
              [OVER, UNDER])
  }

  lemma EvenIsStored()
    ensures StoredOdds(1.9) == Some(1900) && StoredLine(2.5) == Some(250) && StoredLine(3.5) == Some(350)
  {
  }

  lemma PricesAreInserted(c: Catalogue)
    requires |c.markets| == 2 && c.outcomes == []
    ensures Upserts(c, 1, EVEN) == Sync(c.(outcomes := [OVER, UNDER]), None)
  {
    EvenIsStored();
    hide UpsertOutcome, StoredOdds;
    NewOutcome(c, 1, OutcomeOver, 1.9, 1900);
    NewOutcome(c.(outcomes := [OVER]), 1, OutcomeUnder, 1.9, 1900);
    assert [] + [OVER] == [OVER] && [OVER] + [UNDER] == [OVER, UNDER];
    TwoUpserts(c, c.(outcomes := [OVER]), c.(outcomes := [OVER, UNDER]));
  }

  lemma TwoUpserts(c: Catalogue, one: Catalogue, two: Catalogue)
    requires UpsertOutcome(c, 1, OutcomeOver, 1.9) == Ok(one) && UpsertOutcome(one, 1, OutcomeUnder, 1.9) == Ok(two)
    ensures Upserts(c, 1, EVEN) == Sync(two, None)
  {
    hide UpsertOutcome;
    assert EVEN[..1] == [(OutcomeOver, 1.9)] && EVEN[..1][..0] == [] && Upserts(c, 1, []) == Sync(c, None);
    assert Upserts(c, 1, EVEN[..1]) == Sync(one, None);
  }

  lemma RowsAreFound()
    ensures Where([OVER, UNDER], Keyed(1, OutcomeOver)) == [0] && Where([OVER, UNDER], Keyed(1, OutcomeUnder)) == [1]
  {
    hide Where;
    WhereNone([], Keyed(1, OutcomeOver));
    WhereNone([], Keyed(1, OutcomeUnder));
    assert [] + [OVER] == [OVER] && [OVER] + [UNDER] == [OVER, UNDER];
    WhereAppend([], OVER, Keyed(1, OutcomeOver));
    WhereAppend([], OVER, Keyed(1, OutcomeUnder));
    WhereAppend([OVER], UNDER, Keyed(1, OutcomeOver));
    WhereAppend([OVER], UNDER, Keyed(1, OutcomeUnder));
  }

  lemma PricesAreKept(c: Catalogue)
    requires |c.markets| == 2 && c.outcomes == [OVER, UNDER]
    ensures Upserts(c, 1, EVEN) == Sync(c, None)
  {
    EvenIsStored();
    RowsAreFound();
    hide StoredOdds, Where, Upserts;
    assert c.outcomes[0 := OVER] == c.outcomes && c.outcomes[1 := UNDER] == c.outcomes;
    TwoUpserts(c, c, c);
  }

  lemma AtIsTheLine(line: real)
    ensures First(At(line), OfKind(ApiML)) == None && First(At(line), OfKind(ApiTotals)) == Some(0)
    ensures MainLine(At(line)[0].lines) == Some(0) && TotalsQuotes(At(line)[0].lines[0]) == EVEN
  {
  }

  /** Two markets of the fixture, the totals one with or without a line. */
  predicate Fixture(c: Catalogue) {
    && |c.markets| == 2 && c.markets[0].eventId == 0 && c.markets[0].kind == MarketML
    && c.markets[1].eventId == 0 && c.markets[1].kind == MarketTotals && c.markets[1].status == MarketOpen
  }

  function Suspending(c: Catalogue): Catalogue
    requires |c.markets| > 0
  {
    c.(markets := c.markets[0 := c.markets[0].(status := MarketSuspended)])
  }

  lemma LineIsSynced(c: Catalogue, line: real, stored: int, outcomes: seq<Outcome>)
    requires Fixture(c) && StoredLine(line) == Some(stored) && !SameLine(c.markets[1].line, line)
    requires var lined := Suspending(c).(markets := Suspending(c).markets[1 := c.markets[1].(line := Some(stored))]);
      Upserts(lined, 1, EVEN) == Sync(lined.(outcomes := outcomes), None)
    ensures ApplyEvent(c, 0, Some(At(line))).cat
         == Catalogue(c.events, [c.markets[0].(status := MarketSuspended), c.markets[1].(line := Some(stored))], outcomes)
  {
    AtIsTheLine(line);
    var c' := Suspending(c);
    MarketsAreFound(c);
    MarketsAreFound(c');
    assert EnsureStatus(c, 0, MarketSuspended) == c' by {
      assert c.markets[0 := c.markets[0]] == c.markets;
    }
    hide First, MainLine, Upserts, StoredLine, TotalsQuotes, At;
    assert SyncMarket(c, 0, MarketML, At(line)) == Sync(c', None);
    assert c'.markets[1 := c.markets[1].(line := Some(stored))] == [c.markets[0].(status := MarketSuspended), c.markets[1].(line := Some(stored))];
  }

  lemma LineSteps()
    ensures ApplyEvent(SYNCED, 0, Some(At(2.5))).cat == Lined(250)
    ensures ApplyEvent(Lined(250), 0, Some(At(3.5))).cat == Lined(350)
  {
    EvenIsStored();
    hide ApplyEvent, Upserts, StoredLine, StoredOdds;
    var first := Suspending(SYNCED).(markets := Suspending(SYNCED).markets[1 := SYNCED.markets[1].(line := Some(250))]);
    PricesAreInserted(first);
    LineIsSynced(SYNCED, 2.5, 250, [OVER, UNDER]);
    var c := Lined(250);
    PricesAreKept(Suspending(c).(markets := Suspending(c).markets[1 := c.markets[1].(line := Some(350))]));
    LineIsSynced(c, 3.5, 350, [OVER, UNDER]);
  }

  const SEEN := [Register("a"), FeedEvent(FIXTURE), FeedOdds(0, Some(At(2.5))), Place(0, 0, 0, 10)]
  const MOVED := [FeedOdds(0, Some(At(3.5)))]
  const PLAYED := FeedResult(2000, 0, EventSettled, Decoded(2, 1))

  lemma OddsStepAt(db: Db, line: real, next: Catalogue)
    requires 0 < |db.cat.events| && db.cat.events[0] == FIXTURE_ROW && ApplyEvent(db.cat, 0, Some(At(line))).cat == next
    ensures Exec(db, LAX, FeedOdds(0, Some(At(line)))) == db.(cat := next)
  {
    hide ApplyEvent, At;
  }

  lemma OverIsTaken(db: Db)
    requires db == Db(Lined(250), ENROLLED)
    ensures var next := Exec(db, LAX, Place(0, 0, 0, 10));
      next.cat == Lined(250) && TotalsBet(next, 0, 0) && next.bank.bets[0].eventId == 0 && LineOf(next.cat, 0) == Some(250)
  {
    PlaceBetExactly(db, LAX, 0, 0, 0, 10);
    assert Acceptable(db, LAX, 0, 0, 0, 10);
    PlacedIsTotalsBet(db, LAX, 0, 0, 0, 10);
    hide PlaceBet;
  }

  /** A user bets on over 2.5 and the feed then moves the line to 3.5. */
  lemma LineMoves()
    ensures var db := Run(EMPTY, LAX, SEEN);
      && db.cat == Lined(250) && TotalsBet(db, 0, 0) && db.bank.bets[0].eventId == 0
      && Run(db, LAX, MOVED) == db.(cat := Lined(350))
  {
    RegisterStep();
    FeedStep();
    LineSteps();
    hide Exec, ApplyEvent, TotalsBet, Lined, Run, SyncEvent;
    assert Lined(250).events[0] == FIXTURE_ROW && SYNCED.events[0] == FIXTURE_ROW && |Lined(250).events| == |SYNCED.events| == 1 by {
      LinedHasFixture();
    }
    OddsStepAt(Db(SYNCED, ENROLLED), 2.5, Lined(250));
    OverIsTaken(Db(Lined(250), ENROLLED));
    RunOfFour(EMPTY, LAX, Register("a"), FeedEvent(FIXTURE), FeedOdds(0, Some(At(2.5))), Place(0, 0, 0, 10));
    var db := Run(EMPTY, LAX, SEEN);
    OddsStepAt(db, 3.5, Lined(350));
    RunOfOne(db, FeedOdds(0, Some(At(3.5))));
  }

  lemma LinedHasFixture()
    ensures Lined(250).events == [FIXTURE_ROW]
  {
  }

  lemma RunOfOne(db: Db, op: Op)
    ensures Run(db, LAX, [op]) == Exec(db, LAX, op)
  {
    hide Exec;
    assert [] + [op] == [op];
    RunSnoc(db, LAX, [], op);
  }

  lemma ResultIsAccepted(c: Catalogue)
    requires c == Lined(350)
    ensures SettlesByScore(c, PLAYED, 0, 2, 1)
    ensures c.outcomes[0].code == OutcomeOver && LineOf(c, 0) == Some(350) && LineOf(Lined(250), 0) == Some(250)
  {
  }

  /** With three goals the bet on over 2.5 is lost, because the market's line is 3.5 when the event is settled. */
  lemma MovedLineLosesTheBet()
    ensures var db := Run(EMPTY, LAX, SEEN);
      && TotalsBet(db, 0, 0) && LineOf(db.cat, 0) == Some(250)
      && TotalsVerdict(db.cat.outcomes[0].code, 2, 1, LineOf(db.cat, 0)) == ResultWon
    ensures var done := Exec(Run(Run(EMPTY, LAX, SEEN), LAX, MOVED), LAX, PLAYED);
      0 < |done.bank.bets| && done.bank.bets[0].status == BetLost
  {
    LineMoves();
    Runs.ReachableKeepsInv(LAX, SEEN);
    ResultIsAccepted(Lined(350));
    assert Lined(250).outcomes[0].code == OutcomeOver;
    hide Exec, Run, Runs.Inv, SettlesByScore, Lined, LineOf;
    LineOfPlacingDecidesExactlyWhen(Run(EMPTY, LAX, SEEN), LAX, 0, 0, MOVED, PLAYED, 2, 1);
  }

  // ---------- the draw is withdrawn ----------

  function Quoting(l: OddsLine): Option<seq<ApiMarket>> {
    Some([ApiMarket(ApiML, [l])])
  }

  const DRAWN := [FeedEvent(FIXTURE), FeedOdds(0, Quoting(WITH_DRAW)), FeedOdds(0, Quoting(WITHOUT_DRAW))]

  lemma QuoteStep(db: Db, l: OddsLine)
    requires Sane(db.cat) && 0 < |db.cat.events| && db.cat.events[0] == FIXTURE_ROW
    ensures var next := Exec(db, LAX, FeedOdds(0, Quoting(l)));
      next == db.(cat := ApplyEvent(db.cat, 0, Quoting(l)).cat) && next.cat.events == db.cat.events && Sane(next.cat)
  {
    hide ApplyEvent, Sane, Quoting;
    Lifecycle.ApplyEventEvolves(db.cat, 0, Quoting(l));
  }

  lemma FixtureIsSynced()
    ensures Exec(EMPTY, LAX, FeedEvent(FIXTURE)) == EMPTY.(cat := SYNCED) && Sane(SYNCED)
    ensures First(SYNCED.markets, MarketOfKind(0, MarketML)) == Some(0)
  {
    FeedCreatesFixture();
    MarketsAreFound(SYNCED);
    SyncedIsSane(SYNCED);
    hide SyncEvent, First, Sane;
  }

  lemma SyncedIsSane(c: Catalogue)
    requires |c.events| == 1 && |c.markets| == 2 && c.outcomes == [] && c.markets[0].eventId == c.markets[1].eventId == 0
    ensures Sane(c)
  {
  }

  /** The feed lists a fixture, its bookmaker offers a draw and then none: the draw stays open at its old price. */
  lemma WithdrawnDrawStaysOnOffer()
    ensures var c := Run(EMPTY, LAX, DRAWN).cat;
      && 0 < |c.markets| && c.markets[0].kind == MarketML && c.markets[0].status == MarketOpen
      && PriceOf(c, 0, OutcomeDraw) == Some(3000) && QuoteFor(MLQuotes(WITHOUT_DRAW), OutcomeDraw) == None
  {
    FixtureIsSynced();
    LinesAreStorable();
    assert ValidML()(WITHOUT_DRAW);
    assert |SYNCED.events| == 1 && SYNCED.events[0] == FIXTURE_ROW;
    hide Exec, ApplyEvent, First, Sane, PriceOf, QuoteFor, MLQuotes, SYNCED, Run;
    var db := EMPTY.(cat := SYNCED);
    QuoteStep(db, WITH_DRAW);
    var first := Exec(db, LAX, FeedOdds(0, Quoting(WITH_DRAW)));
    QuoteStep(first, WITHOUT_DRAW);
    WithdrawnDrawStays(SYNCED);
    RunOfThree(EMPTY, FeedEvent(FIXTURE), FeedOdds(0, Quoting(WITH_DRAW)), FeedOdds(0, Quoting(WITHOUT_DRAW)));
    KindsStay(SYNCED, first.cat, WITH_DRAW);
    KindsStay(first.cat, Run(EMPTY, LAX, DRAWN).cat, WITHOUT_DRAW);
  }

  lemma KindsStay(c: Catalogue, next: Catalogue, l: OddsLine)
    requires Sane(c) && next == ApplyEvent(c, 0, Quoting(l)).cat && 0 < |c.events| && |c.markets| > 0
    ensures |next.markets| > 0 && next.markets[0].kind == c.markets[0].kind
  {
    hide ApplyEvent, Sane;
    Lifecycle.ApplyEventEvolves(c, 0, Quoting(l));
    assert Lifecycle.MarketEvolves(c, next, 0, 0);
  }

  lemma RunOfThree(db: Db, a: Op, b: Op, c: Op)
    ensures Run(db, LAX, [a, b, c]) == Exec(Exec(Exec(db, LAX, a), LAX, b), LAX, c)
  {
    hide Exec;
    assert [a] + [b] == [a, b] && [a, b] + [c] == [a, b, c];
    RunOfOne(db, a);
    RunSnoc(db, LAX, [a], b);
    RunSnoc(db, LAX, [a, b], c);
  }
}
