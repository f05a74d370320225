/** Every service call as one atomic step on the database, and whole runs of such calls. */
module Service {
  import opened Domain
  import opened BankOps
  import opened Plans
  import opened CatalogueOps
  import opened OddsSync
  import opened Settlement

  datatype Op =
    | Register(email: string)
    | Login(provider: Provider, externalId: string, loginEmail: Option<string>)
    | Place(now: int, user: nat, outcome: nat, stake: int)
    | Adjust(user: nat, amount: int)
    | NewMatch(leagueFound: bool, match_: MatchInput)
    | NewCustom(custom: CustomInput)
    | EditCustom(e: nat, cancel: bool, startsAt: Option<int>, edits: seq<OutcomeEdit>)
    | EditMatch(e: nat, cancel: bool, leagueFound: bool, startsAt: Option<int>, edits: seq<OutcomeEdit>)
    | GoLive(e: nat, status: EventStatus)
    | SetScores(e: nat, home: int, away: int)
    | SettleCustom(e: nat, winner: nat)
    | FeedEvent(api: ApiEvent)
    | FeedOdds(e: nat, quotes: Option<seq<ApiMarket>>)
    | FeedResult(now: int, e: nat, status: EventStatus, scores: Scores)

  /** The arguments of an accepted settlement. */
  datatype Close = Close(e: nat, final: EventStatus, d: Decision, scores: Scores)

  /** CancelEvent (any source) and CancelMatch (manual only). */
  function CancelGuard(c: Catalogue, e: nat, manualOnly: bool): Try<Close> {
    if e >= |c.events| then Err(ErrNotFound)
    else if (manualOnly && c.events[e].source != SourceManual) || Terminal(c.events[e].status) then Err(ErrMarketClosed)
    else Ok(Close(e, EventCancelled, Cancellation, NoScores))
  }

  /** SetMatchScores. */
  function ScoresGuard(c: Catalogue, e: nat, home: int, away: int): Try<Close> {
    if home < 0 || away < 0 then Err(ErrBetOutOfRange)
    else if e >= |c.events| then Err(ErrNotFound)
    else if c.events[e].source != SourceManual || Terminal(c.events[e].status) || c.events[e].scores != NoScores then
      Err(ErrMarketClosed)
    else Ok(Close(e, EventSettled, ByScore(home, away), Decoded(home, away)))
  }

  /** SettleCustom. */
  function CustomGuard(c: Catalogue, e: nat, winner: nat): Try<Close> {
    if e >= |c.events| then Err(ErrNotFound)
    else if c.events[e].source != SourceCustom || Terminal(c.events[e].status) then Err(ErrMarketClosed)
    else Ok(Close(e, EventSettled, ByWinner(winner), NoScores))
  }

  /** ListForSettlement and processEvent: a started, open feed event whose source reports a final state. */
  function ResultGuard(c: Catalogue, now: int, e: nat, status: EventStatus, scores: Scores): Try<Close> {
    if e >= |c.events| then Err(ErrNotFound)
    else if c.events[e].source != SourceOddsAPI || Terminal(c.events[e].status) || c.events[e].startsAt >= now
            || !Terminal(status) then
      Err(ErrMarketClosed)
    else if status == EventCancelled then Ok(Close(e, status, Cancellation, scores))
    else
      match ParseScores(scores)
      case None => Err(ErrScoresUnavailable)
      case Some((home, away)) => Ok(Close(e, status, ByScore(home, away), scores))
  }

  predicate Closing(op: Op) {
    op.SetScores? || op.SettleCustom? || op.FeedResult? || ((op.EditCustom? || op.EditMatch?) && op.cancel)
  }

  /** The settlement an operation asks for; it depends on the catalogue alone. */
  function CloseOf(c: Catalogue, op: Op): Try<Close>
    requires Closing(op)
  {
    match op
    case EditCustom(e, _, _, edits) => if ValidEdits(edits) then CancelGuard(c, e, false) else Err(ErrBetOutOfRange)
    case EditMatch(e, _, _, _, edits) => if ValidEdits(edits) then CancelGuard(c, e, true) else Err(ErrBetOutOfRange)
    case SetScores(e, home, away) => ScoresGuard(c, e, home, away)
    case SettleCustom(e, winner) => CustomGuard(c, e, winner)
    case FeedResult(now, e, status, scores) => ResultGuard(c, now, e, status, scores)
  }

  /** Operations that write only events, markets and outcomes. */
  predicate CatalogueOnly(op: Op) {
    op.NewMatch? || op.NewCustom? || op.GoLive? || op.FeedEvent? || op.FeedOdds?
    || ((op.EditCustom? || op.EditMatch?) && !op.cancel)
  }

  function StepCatalogue(c: Catalogue, op: Op): Try<Catalogue>
    requires CatalogueOnly(op)
  {
    match op
    case NewMatch(leagueFound, input) => CreateMatch(c, leagueFound, input)
    case NewCustom(input) => CreateCustomEvent(c, input)
    case EditCustom(e, _, startsAt, edits) =>
      if ValidEdits(edits) then EditDetails(c, SourceCustom, e, startsAt, edits) else Err(ErrBetOutOfRange)
    case EditMatch(e, _, leagueFound, startsAt, edits) =>
      if !ValidEdits(edits) then Err(ErrBetOutOfRange)
      else if EditDetails(c, SourceManual, e, startsAt, []).Ok? && !leagueFound then Err(ErrNotFound)
      else EditDetails(c, SourceManual, e, startsAt, edits)
    case GoLive(e, status) => SetMatchStatus(c, e, status)
    case FeedEvent(api) => Ok(SyncEvent(c, api))
    case FeedOdds(e, quotes) =>
      if e < |c.events| && c.events[e].source == SourceOddsAPI && c.events[e].status == EventUpcoming
      then Ok(ApplyEvent(c, e, quotes).cat) else Err(ErrMarketClosed)
  }

  function Step(db: Db, cfg: Config, op: Op): Try<Db> {
    if Closing(op) then
      match CloseOf(db.cat, op)
      case Err(error) => Err(error)
      case Ok(close) => Settle(db, close.e, close.final, close.d, close.scores)
    else if CatalogueOnly(op) then
      match StepCatalogue(db.cat, op)
      case Err(error) => Err(error)
      case Ok(cat) => Ok(db.(cat := cat))
    else
      match op
      case Place(now, user, outcome, stake) => PlaceBet(db, cfg, now, user, outcome, stake)
      case Register(email) => OnBank(db, BankOps.Register(db.bank, email, cfg.signupBonus))
      case Adjust(user, amount) => OnBank(db, AdjustBalance(db.bank, user, amount))
      case Login(provider, externalId, email) =>
        match LoginOrRegister(db.bank, provider, externalId, email, cfg.signupBonus) {
          case Err(error) => Err(error)
          case Ok((bank, _)) => Ok(db.(bank := bank))
        }
  }

  function OnBank(db: Db, r: Try<Bank>): Try<Db> {
    match r
    case Err(error) => Err(error)
    case Ok(bank) => Ok(db.(bank := bank))
  }

  /** A refused call leaves the database as it was. */
  function Exec(db: Db, cfg: Config, op: Op): Db {
    match Step(db, cfg, op)
    case Ok(next) => next
    case Err(_) => db
  }

  function Run(db: Db, cfg: Config, ops: seq<Op>): Db
    decreases |ops|
  {
    if |ops| == 0 then db else Run(Exec(db, cfg, ops[0]), cfg, ops[1..])
  }

  lemma RunSnoc(db: Db, cfg: Config, ops: seq<Op>, op: Op)
    ensures Run(db, cfg, ops + [op]) == Exec(Run(db, cfg, ops), cfg, op)
    decreases |ops|
  {
    hide Exec;
    if |ops| > 0 {
      assert (ops + [op])[1..] == ops[1..] + [op];
      RunSnoc(Exec(db, cfg, ops[0]), cfg, ops[1..], op);
    } else {
      assert ops + [op] == [op] && |[op][1..]| == 0;
      assert Run(Exec(db, cfg, op), cfg, [op][1..]) == Exec(db, cfg, op);
    }
  }

  lemma RunOfFour(db: Db, cfg: Config, a: Op, b: Op, c: Op, d: Op)
    ensures Run(db, cfg, [a, b, c, d]) == Exec(Exec(Exec(Exec(db, cfg, a), cfg, b), cfg, c), cfg, d)
  {
    hide Exec;
    assert Run(db, cfg, []) == db;
    assert [] + [a] == [a] && [a] + [b] == [a, b] && [a, b] + [c] == [a, b, c] && [a, b, c] + [d] == [a, b, c, d];
    RunSnoc(db, cfg, [], a);
    RunSnoc(db, cfg, [a], b);
    RunSnoc(db, cfg, [a, b], c);
    RunSnoc(db, cfg, [a, b, c], d);
  }

  lemma {:induction false} RunAppend(db: Db, cfg: Config, a: seq<Op>, b: seq<Op>)
    ensures Run(db, cfg, a + b) == Run(Run(db, cfg, a), cfg, b)
    decreases |a|
  {
    hide Exec;
    if |a| == 0 {
      assert a + b == b;
    } else {
      assert (a + b)[1..] == a[1..] + b;
      RunAppend(Exec(db, cfg, a[0]), cfg, a[1..], b);
    }
  }

  /** The empty database before the first call. */
  const EMPTY := Db(Catalogue([], [], []), Bank([], map[], map[], [], []))

  /** Cancelling, entering a score and naming a winner are the settlement service's calls behind their guards. */
  lemma ClosingIsSettleEvent(db: Db, op: Op)
    requires Closing(op) && CloseOf(db.cat, op).Ok?
    ensures var close := CloseOf(db.cat, op).value;
      Settle(db, close.e, close.final, close.d, close.scores)
      == if op.SettleCustom? then SettleCustomEvent(db, op.e, op.winner)
         else SettleEvent(db, op.e, close.final, close.scores)
  {
    hide ApplyPlan, PlanOf;
  }
}
