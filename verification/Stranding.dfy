/** A concrete run: the status the event feed writes can strand a pending bet. */
module Stranding {
  import opened Sums
  import opened Domain
  import opened BankOps
  import opened Ledger
  import opened CatalogueOps
  import opened OddsSync
  import opened Service
  import opened Runs

  const LAX := Config(100, 1, 50)
  const FIXTURE := ApiEvent(7, 1000, EventUpcoming, NoScores)
  const LINE := OddsLine(None, Some(2.0), None, Some(2.0), None, None)
  const PRICES := [ApiMarket(ApiML, [LINE])]

  const FIXTURE_ROW := Event(SourceOddsAPI, Some(7), 1000, EventUpcoming, NoScores)
  const HOME := Outcome(0, OutcomeHome, 2000, None)
  const AWAY := Outcome(0, OutcomeAway, 2000, None)

  const SYNCED := Catalogue([FIXTURE_ROW], [Market(0, MarketML, None, MarketOpen), Market(0, MarketTotals, None, MarketOpen)], [])
  const PRICED := Catalogue([FIXTURE_ROW], [Market(0, MarketML, None, MarketOpen), Market(0, MarketTotals, None, MarketSuspended)],
                            [HOME, AWAY])
  const ENROLLED := Bank([User(Some("a"))], map[], map[0 := 100], [], [LedgerRow(0, 100, TxSignupBonus, None, 100)])
  const STAKED := Bank([User(Some("a"))], map[], map[0 := 90], [Bet(0, 0, 0, 10, 2000, 20, BetPending)],
                       [LedgerRow(0, 100, TxSignupBonus, None, 100), LedgerRow(0, -10, TxBetStake, Some(0), 90)])

  lemma FeedCreatesFixture()
    ensures SyncEvent(EMPTY.cat, FIXTURE) == SYNCED
  {
  }

  lemma TwoIsStored()
    ensures StoredOdds(2.0) == Some(2000)
  {
  }

  lemma NewOutcome(c: Catalogue, m: nat, code: OutcomeCode, odds: real, stored: int)
    requires m < |c.markets| && StoredOdds(odds) == Some(stored)
    requires forall i :: 0 <= i < |c.outcomes| ==> !Keyed(m, code)(c.outcomes[i])
    ensures UpsertOutcome(c, m, code, odds) == Ok(c.(outcomes := c.outcomes + [Outcome(m, code, stored, None)]))
  {
    hide StoredOdds;
    WhereNone(c.outcomes, Keyed(m, code));
  }

  lemma PricesAreStored(c: Catalogue)
    requires |c.markets| > 0 && c.outcomes == []
    ensures Upserts(c, 0, [(OutcomeHome, 2.0), (OutcomeAway, 2.0)]) == Sync(c.(outcomes := [HOME, AWAY]), None)
  {
    var home, away := (OutcomeHome, 2.0), (OutcomeAway, 2.0);
    var one := c.(outcomes := [HOME]);
    TwoIsStored();
    hide UpsertOutcome, StoredOdds;
    NewOutcome(c, 0, OutcomeHome, 2.0, 2000);
    NewOutcome(one, 0, OutcomeAway, 2.0, 2000);
    assert c.outcomes + [HOME] == [HOME] && [HOME] + [AWAY] == [HOME, AWAY];
    assert [] + [home] == [home] && [home] + [away] == [home, away];
    assert Upserts(c, 0, []) == Sync(c, None);
    UpsertsAppend(c, 0, [], home);
    UpsertsAppend(c, 0, [home], away);
  }

  lemma MarketsAreFound(c: Catalogue)
    requires |c.markets| == 2 && MarketOfKind(0, MarketML)(c.markets[0]) && MarketOfKind(0, MarketTotals)(c.markets[1])
    ensures First(c.markets, MarketOfKind(0, MarketML)) == Some(0)
    ensures First(c.markets, MarketOfKind(0, MarketTotals)) == Some(1)
  {
    assert c.markets == [c.markets[0]] + [c.markets[1]];
    WhereAppend([c.markets[0]], c.markets[1], MarketOfKind(0, MarketML));
    WhereAppend([c.markets[0]], c.markets[1], MarketOfKind(0, MarketTotals));
    assert Where([c.markets[0]], MarketOfKind(0, MarketML)) == [0];
    assert Where([c.markets[0]], MarketOfKind(0, MarketTotals)) == [];
  }

  lemma MLIsPriced()
    ensures SyncMarket(SYNCED, 0, MarketML, PRICES) == Sync(SYNCED.(outcomes := [HOME, AWAY]), None)
  {
    MarketsAreFound(SYNCED);
    assert First(PRICES, OfKind(ApiML)) == Some(0);
    assert First([LINE], ValidML()) == Some(0);
    assert MLQuotes(LINE) == [(OutcomeHome, 2.0), (OutcomeAway, 2.0)];
    PricesAreStored(SYNCED);
    hide Upserts, First;
  }

  lemma OddsOpenTheFixture()
    ensures ApplyEvent(SYNCED, 0, Some(PRICES)).cat == PRICED
  {
    MLIsPriced();
    MarketsAreFound(SYNCED.(outcomes := [HOME, AWAY]));
    assert First(PRICES, OfKind(ApiTotals)) == None;
    hide Upserts, First, ApplyML;
  }

  lemma RegisterStep()
    ensures Exec(EMPTY, LAX, Register("a")) == Db(EMPTY.cat, ENROLLED)
  {
    EnrollEffect(EMPTY.bank, Some("a"), 100);
    assert EMPTY.bank.users + [User(Some("a"))] == ENROLLED.users;
    assert EMPTY.bank.ledger + [LedgerRow(0, 100, TxSignupBonus, None, 100)] == ENROLLED.ledger;
  }

  lemma FeedStep()
    ensures Exec(Db(EMPTY.cat, ENROLLED), LAX, FeedEvent(FIXTURE)) == Db(SYNCED, ENROLLED)
  {
    FeedCreatesFixture();
    hide SyncEvent;
  }

  lemma OddsStep()
    ensures Exec(Db(SYNCED, ENROLLED), LAX, FeedOdds(0, Some(PRICES))) == Db(PRICED, ENROLLED)
  {
    OddsOpenTheFixture();
    hide ApplyEvent;
  }

  lemma PlaceStep()
    ensures Exec(Db(PRICED, ENROLLED), LAX, Place(0, 0, 0, 10)) == Db(PRICED, STAKED)
  {
    var bet := Bet(0, 0, 0, 10, 2000, 20, BetPending);
    assert ENROLLED.ledger + [LedgerRow(0, -10, TxBetStake, Some(0), 90)] == STAKED.ledger;
    assert ENROLLED.bets + [bet] == STAKED.bets;
    var staked := ENROLLED.(bets := ENROLLED.bets + [bet]);
    assert Post(staked, 0, -10, TxBetStake, Some(0))
        == Ok(staked.(wallets := ENROLLED.wallets[0 := 90], ledger := STAKED.ledger));
    assert ENROLLED.wallets[0 := 90] == STAKED.wallets;
    assert StakeBet(ENROLLED, bet) == Ok(STAKED);
    hide StakeBet;
  }

  const PLAY := [Register("a"), FeedEvent(FIXTURE), FeedOdds(0, Some(PRICES)), Place(0, 0, 0, 10)]

  lemma PlayReachesBet()
    ensures Run(EMPTY, LAX, PLAY) == Db(PRICED, STAKED)
  {
    RegisterStep();
    FeedStep();
    OddsStep();
    PlaceStep();
    hide Exec;
    RunOfFour(EMPTY, LAX, Register("a"), FeedEvent(FIXTURE), FeedOdds(0, Some(PRICES)), Place(0, 0, 0, 10));
  }

  lemma FixtureIsKnown(api: ApiEvent)
    requires api.externalId == 7
    ensures UpsertEvent(PRICED, api).1 == 0
  {
    assert Feed(7)(FIXTURE_ROW);
  }

  lemma CancelStrands(api: ApiEvent)
    requires api.externalId == 7 && api.status == EventCancelled && Inv(Db(PRICED, STAKED), LAX)
    ensures NoneStuck(Db(PRICED, STAKED)) && !NoneStuck(Exec(Db(PRICED, STAKED), LAX, FeedEvent(api)))
  {
    FixtureIsKnown(api);
    hide Exec, UpsertEvent, Inv;
    assert !Stuck(PRICED, STAKED.bets[0]);
    StepStrandsExactlyWhen(Db(PRICED, STAKED), LAX, FeedEvent(api));
  }

  /**
   * The feed's filter is needed: after a user registers, the feed lists a fixture with prices and the user bets,
   * a feed message with a final status leaves the bet pending on a cancelled event.
   */
  lemma FeedCanStrandABet()
    ensures NoneStuck(Run(EMPTY, LAX, PLAY))
    ensures !NoneStuck(Run(EMPTY, LAX, PLAY + [FeedEvent(FIXTURE.(status := EventCancelled))]))
  {
    var op := FeedEvent(FIXTURE.(status := EventCancelled));
    hide Run, Exec, Inv, NoneStuck;
    PlayReachesBet();
    RunSnoc(EMPTY, LAX, PLAY, op);
    ReachableKeepsInv(LAX, PLAY);
    CancelStrands(op.api);
  }
}
