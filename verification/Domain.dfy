/** The tables of the betting service and the values stored in them. */
module Domain {
  datatype Option<+T> = None | Some(value: T)

  datatype Error =
    | ErrNotFound
    | ErrConflict
    | ErrInsufficientBalance
    | ErrMarketClosed
    | ErrBetOutOfRange
    | ErrScoresUnavailable
    | ErrCheckViolation // a CHECK or NUMERIC bound of the schema refuses the row
    | ErrConnection     // the database stopped answering

  /** What a Go function returning (value, error) returns. */
  datatype Try<+T> = Ok(value: T) | Err(error: Error)

  datatype Provider = ProviderGoogle | ProviderVK | ProviderYandex
  datatype Source = SourceOddsAPI | SourceManual | SourceCustom
  datatype EventStatus = EventUpcoming | EventLive | EventSettled | EventCancelled
  datatype MarketType = MarketML | MarketTotals | MarketCustom
  datatype MarketStatus = MarketOpen | MarketSuspended | MarketSettled | MarketVoid
  datatype OutcomeCode = OutcomeHome | OutcomeDraw | OutcomeAway | OutcomeOver | OutcomeUnder | OutcomeOpt(n: nat)
  datatype Result = ResultWon | ResultLost | ResultVoid
  datatype BetStatus = BetPending | BetWon | BetLost | BetVoid
  datatype TxType = TxSignupBonus | TxBetStake | TxBetPayout | TxBetRefund | TxAdminAdjust

  /** The scores column: absent, not decodable, or decoded to two integers. */
  datatype Scores = NoScores | Garbled | Decoded(home: int, away: int)

  datatype User = User(email: Option<string>)
  datatype Event = Event(source: Source, externalId: Option<int>, startsAt: int, status: EventStatus, scores: Scores)
  datatype Market = Market(eventId: nat, kind: MarketType, line: Option<int>, status: MarketStatus)
  datatype Outcome = Outcome(marketId: nat, code: OutcomeCode, odds: int, result: Option<Result>)
  datatype Bet = Bet(userId: nat, outcomeId: nat, eventId: nat, stake: int, odds: int, payout: int, status: BetStatus)
  datatype LedgerRow = LedgerRow(userId: nat, amount: int, kind: TxType, betId: Option<nat>, balanceAfter: int)

  /** Events, markets and outcomes. No row is ever deleted, so the id of a row is its position. */
  datatype Catalogue = Catalogue(events: seq<Event>, markets: seq<Market>, outcomes: seq<Outcome>)

  /** Users, external identities, wallets, bets and the append-only ledger. */
  datatype Bank = Bank(
    users: seq<User>,
    identities: map<(Provider, string), nat>,
    wallets: map<nat, int>,
    bets: seq<Bet>,
    ledger: seq<LedgerRow>)

  datatype Db = Db(cat: Catalogue, bank: Bank)

  datatype Config = Config(signupBonus: int, betMin: int, betMax: int)

  predicate Terminal(s: EventStatus) {
    s == EventSettled || s == EventCancelled
  }

  /** betStatusFromResult. */
  function BetStatusFromResult(r: Result): BetStatus {
    match r
    case ResultWon => BetWon
    case ResultLost => BetLost
    case ResultVoid => BetVoid
  }

  /** Half away from zero, the rounding of a NUMERIC column with the given scale factor. */
  function Rounded(x: real, scale: real): int {
    if x >= 0.0 then (x * scale + 0.5).Floor else -((-x * scale + 0.5).Floor)
  }

  /** NUMERIC(8,3) CHECK (odds > 1.0), in thousandths; None when the row is refused. */
  function StoredOdds(odds: real): Option<int> {
    var thousandths := Rounded(odds, 1000.0);
    if 1000 < thousandths < 100_000_000 then Some(thousandths) else None
  }

  /** NUMERIC(6,2), in hundredths; None when the row is refused. */
  function StoredLine(line: real): Option<int> {
    var hundredths := Rounded(line, 100.0);
    if -1_000_000 < hundredths < 1_000_000 then Some(hundredths) else None
  }
}
