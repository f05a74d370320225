/** Writes to events, markets and outcomes: admin operations and the event feed. */
module CatalogueOps {
  import opened Sums
  import opened Domain
  import opened Plans

  // ---------- single repository writes ----------

  function InsertEvent(c: Catalogue, source: Source, externalId: Option<int>, startsAt: int, status: EventStatus, scores: Scores)
    : Catalogue
  {
    c.(events := c.events + [Event(source, externalId, startsAt, status, scores)])
  }

  /** markets.CreateForEvent; the new market's id is |c.markets|. */
  function InsertMarket(c: Catalogue, e: nat, kind: MarketType, line: Option<real>): Try<Catalogue> {
    var stored := if line.Some? then StoredLine(line.value) else None;
    if e >= |c.events| || (line.Some? && stored.None?) then Err(ErrCheckViolation)
    else Ok(c.(markets := c.markets + [Market(e, kind, stored, MarketOpen)]))
  }

  function Keyed(m: nat, code: OutcomeCode): Outcome -> bool {
    (o: Outcome) => o.marketId == m && o.code == code
  }

  /** outcomes.Upsert on (market_id, code): a conflict updates the price and keeps the result. */
  function UpsertOutcome(c: Catalogue, m: nat, code: OutcomeCode, odds: real): Try<Catalogue> {
    match StoredOdds(odds)
    case None => Err(ErrCheckViolation)
    case Some(stored) =>
      if m >= |c.markets| then Err(ErrCheckViolation)
      else
        var ids := Where(c.outcomes, Keyed(m, code));
        if ids == [] then Ok(c.(outcomes := c.outcomes + [Outcome(m, code, stored, None)]))
        else Ok(c.(outcomes := c.outcomes[ids[0] := c.outcomes[ids[0]].(odds := stored)]))
  }

  /** outcomes.UpdateLabelAndOdds: no price given only checks that the row exists. */
  function UpdateOdds(c: Catalogue, o: nat, odds: Option<real>): Try<Catalogue> {
    if o >= |c.outcomes| then Err(ErrNotFound)
    else
      match odds
      case None => Ok(c)
      case Some(price) =>
        match StoredOdds(price)
        case None => Err(ErrCheckViolation)
        case Some(stored) => Ok(c.(outcomes := c.outcomes[o := c.outcomes[o].(odds := stored)]))
  }

  function UpdateMarketStatus(c: Catalogue, m: nat, status: MarketStatus): Try<Catalogue> {
    if m >= |c.markets| then Err(ErrNotFound)
    else Ok(c.(markets := c.markets[m := c.markets[m].(status := status)]))
  }

  /** markets.UpdateLine; no line given writes NULL. */
  function UpdateLine(c: Catalogue, m: nat, line: Option<real>): Try<Catalogue> {
    var stored := if line.Some? then StoredLine(line.value) else None;
    if m >= |c.markets| then Err(ErrNotFound)
    else if line.Some? && stored.None? then Err(ErrCheckViolation)
    else Ok(c.(markets := c.markets[m := c.markets[m].(line := stored)]))
  }

  // ---------- creating matches and custom events ----------

  datatype OutcomeInput = OutcomeInput(code: OutcomeCode, text: string, odds: real)
  datatype MarketInput = MarketInput(kind: MarketType, line: Option<real>, outcomes: seq<OutcomeInput>)
  datatype MatchInput = MatchInput(title: string, startsAt: Option<int>, home: string, away: string, markets: seq<MarketInput>)
  datatype CustomOutcomeInput = CustomOutcomeInput(text: Option<string>, odds: Option<real>)
  datatype CustomInput = CustomInput(title: string, startsAt: Option<int>, outcomes: seq<CustomOutcomeInput>)

  predicate IsValidMatchOutcomeCode(kind: MarketType, code: OutcomeCode) {
    match kind
    case MarketML => code == OutcomeHome || code == OutcomeDraw || code == OutcomeAway
    case MarketTotals => code == OutcomeOver || code == OutcomeUnder
    case MarketCustom => false
  }

  predicate ValidMatchMarket(mk: MarketInput) {
    && mk.kind != MarketCustom
    && (mk.kind == MarketTotals ==> mk.line.Some?)
    && mk.outcomes != []
    && forall i :: 0 <= i < |mk.outcomes| ==>
         mk.outcomes[i].text != "" && mk.outcomes[i].odds > 1.0 && IsValidMatchOutcomeCode(mk.kind, mk.outcomes[i].code)
  }

  predicate ValidMatch(input: MatchInput) {
    && input.title != "" && input.startsAt.Some? && input.home != "" && input.away != ""
    && (forall i :: 0 <= i < |input.markets| ==> ValidMatchMarket(input.markets[i]))
    && (exists i :: 0 <= i < |input.markets| && input.markets[i].kind == MarketML)
  }

  const MIN_CUSTOM_OUTCOMES := 2

  predicate ValidCustom(input: CustomInput) {
    && input.title != "" && input.startsAt.Some?
    && |input.outcomes| >= MIN_CUSTOM_OUTCOMES
    && forall i :: 0 <= i < |input.outcomes| ==>
         && input.outcomes[i].text.Some? && input.outcomes[i].text.value != ""
         && input.outcomes[i].odds.Some? && input.outcomes[i].odds.value > 1.0
  }

  function AddOutcomes(c: Catalogue, m: nat, outcomes: seq<OutcomeInput>): Try<Catalogue> {
    if |outcomes| == 0 then Ok(c)
    else
      match AddOutcomes(c, m, outcomes[..|outcomes| - 1])
      case Err(error) => Err(error)
      case Ok(next) => UpsertOutcome(next, m, outcomes[|outcomes| - 1].code, outcomes[|outcomes| - 1].odds)
  }

  function AddMarket(c: Catalogue, e: nat, mk: MarketInput): Try<Catalogue> {
    match InsertMarket(c, e, mk.kind, mk.line)
    case Err(error) => Err(error)
    case Ok(next) => AddOutcomes(next, |c.markets|, mk.outcomes)
  }

  function AddMarkets(c: Catalogue, e: nat, markets: seq<MarketInput>): Try<Catalogue> {
    if |markets| == 0 then Ok(c)
    else
      match AddMarkets(c, e, markets[..|markets| - 1])
      case Err(error) => Err(error)
      case Ok(next) => AddMarket(next, e, markets[|markets| - 1])
  }

  /** AdminService.CreateMatch; whether the league exists is a parameter. */
  function CreateMatch(c: Catalogue, leagueFound: bool, input: MatchInput): Try<Catalogue> {
    if !leagueFound then Err(ErrNotFound)
    else if !ValidMatch(input) then Err(ErrBetOutOfRange)
    else
      AddMarkets(InsertEvent(c, SourceManual, None, input.startsAt.value, EventUpcoming, NoScores),
                 |c.events|, input.markets)
  }

  /** The custom market's outcomes with their codes opt_1 .. opt_N. */
  function CustomOutcomes(input: CustomInput): seq<OutcomeInput>
    requires ValidCustom(input)
  {
    seq(|input.outcomes|, i requires 0 <= i < |input.outcomes| =>
      OutcomeInput(OutcomeOpt(i + 1), input.outcomes[i].text.value, input.outcomes[i].odds.value))
  }

  function CustomMarket(input: CustomInput): MarketInput
    requires ValidCustom(input)
  {
    MarketInput(MarketCustom, None, CustomOutcomes(input))
  }

  /** AdminService.CreateCustomEvent. */
  function CreateCustomEvent(c: Catalogue, input: CustomInput): Try<Catalogue> {
    if !ValidCustom(input) then Err(ErrBetOutOfRange)
    else
      AddMarket(InsertEvent(c, SourceCustom, None, input.startsAt.value, EventUpcoming, NoScores),
                |c.events|, CustomMarket(input))
  }

  // ---------- editing ----------

  datatype OutcomeEdit = OutcomeEdit(id: nat, odds: Option<real>)

  predicate ValidEdits(edits: seq<OutcomeEdit>) {
    forall i :: 0 <= i < |edits| && edits[i].odds.Some? ==> edits[i].odds.value > 1.0
  }

  function EditOutcomes(c: Catalogue, edits: seq<OutcomeEdit>): Try<Catalogue> {
    if |edits| == 0 then Ok(c)
    else
      match EditOutcomes(c, edits[..|edits| - 1])
      case Err(error) => Err(error)
      case Ok(next) => UpdateOdds(next, edits[|edits| - 1].id, edits[|edits| - 1].odds)
  }

  /** EditEvent (source custom) and EditMatch (source manual) without a cancellation. */
  function EditDetails(c: Catalogue, source: Source, e: nat, startsAt: Option<int>, edits: seq<OutcomeEdit>): Try<Catalogue> {
    if e >= |c.events| then Err(ErrNotFound)
    else if c.events[e].source != source || c.events[e].status != EventUpcoming then Err(ErrMarketClosed)
    else
      var moved := if startsAt.Some? then c.events[e].(startsAt := startsAt.value) else c.events[e];
      EditOutcomes(c.(events := c.events[e := moved]), edits)
  }

  function Suspended(markets: seq<Market>, e: nat): seq<Market> {
    seq(|markets|, m requires 0 <= m < |markets| =>
      if markets[m].eventId == e then markets[m].(status := MarketSuspended) else markets[m])
  }

  /** AdminService.SetMatchStatus: only upcoming -> live, and every market of the match is suspended. */
  function SetMatchStatus(c: Catalogue, e: nat, status: EventStatus): Try<Catalogue> {
    if status != EventLive then Err(ErrMarketClosed)
    else if e >= |c.events| then Err(ErrNotFound)
    else if c.events[e].source != SourceManual || c.events[e].status != EventUpcoming then Err(ErrMarketClosed)
    else
      Ok(c.(events := c.events[e := c.events[e].(status := EventLive)], markets := Suspended(c.markets, e)))
  }

  // ---------- the event feed ----------

  datatype ApiEvent = ApiEvent(externalId: int, startsAt: int, status: EventStatus, scores: Scores)

  function Feed(externalId: int): Event -> bool {
    (ev: Event) => ev.source == SourceOddsAPI && ev.externalId == Some(externalId)
  }

  /** events.Upsert on (source, external_id): the status is rewritten, a missing score keeps the old one. */
  function UpsertEvent(c: Catalogue, api: ApiEvent): (Catalogue, nat) {
    var ids := Where(c.events, Feed(api.externalId));
    if ids == [] then
      (InsertEvent(c, SourceOddsAPI, Some(api.externalId), api.startsAt, api.status, api.scores), |c.events|)
    else
      var stored := c.events[ids[0]];
      var scores := if api.scores == NoScores then stored.scores else api.scores;
      (c.(events := c.events[ids[0] := stored.(startsAt := api.startsAt, status := api.status, scores := scores)]), ids[0])
  }

  predicate HasKind(c: Catalogue, e: nat, kind: MarketType) {
    exists m :: 0 <= m < |c.markets| && c.markets[m].eventId == e && c.markets[m].kind == kind
  }

  function EnsureMarket(c: Catalogue, e: nat, kind: MarketType): Catalogue {
    if HasKind(c, e, kind) then c else c.(markets := c.markets + [Market(e, kind, None, MarketOpen)])
  }

  /** One event of EventSyncWorker.Run: upsert, then its ML and TOTALS markets if missing. */
  function SyncEvent(c: Catalogue, api: ApiEvent): Catalogue {
    var (next, e) := UpsertEvent(c, api);
    EnsureMarket(EnsureMarket(next, e, MarketML), e, MarketTotals)
  }

  // ---------- what every single write keeps ----------

  predicate SaneMarket(c: Catalogue, m: nat)
    requires m < |c.markets|
  {
    c.markets[m].eventId < |c.events|
  }

  /** Every stored price is above 1.0, and a TOTALS market with an outcome has a line. */
  predicate SaneOutcome(c: Catalogue, o: nat)
    requires o < |c.outcomes|
  {
    var outcome := c.outcomes[o];
    && outcome.marketId < |c.markets|
    && outcome.odds > 1000
    && (c.markets[outcome.marketId].kind == MarketTotals ==> c.markets[outcome.marketId].line.Some?)
  }

  ghost predicate Sane(c: Catalogue) {
    && (forall m :: 0 <= m < |c.markets| ==> SaneMarket(c, m))
    && (forall o :: 0 <= o < |c.outcomes| ==> SaneOutcome(c, o))
    && UniqueCodes(c)
  }

  predicate Priceable(c: Catalogue, m: nat) {
    m < |c.markets| && (c.markets[m].kind == MarketTotals ==> c.markets[m].line.Some?)
  }

  predicate Lined(mk: MarketInput) {
    mk.kind == MarketTotals ==> mk.line.Some?
  }

  lemma InsertMarketKeepsSane(c: Catalogue, e: nat, kind: MarketType, line: Option<real>)
    requires Sane(c) && InsertMarket(c, e, kind, line).Ok?
    ensures Sane(InsertMarket(c, e, kind, line).value)
  {
    var next := InsertMarket(c, e, kind, line).value;
    forall o | 0 <= o < |next.outcomes| ensures SaneOutcome(next, o) {
      assert SaneOutcome(c, o);
    }
    forall m | 0 <= m < |next.markets| ensures SaneMarket(next, m) {
      assert m < |c.markets| ==> SaneMarket(c, m);
    }
  }

  lemma AppendOutcomeKeepsSane(c: Catalogue, row: Outcome)
    requires Sane(c) && Priceable(c, row.marketId) && row.odds > 1000
    requires forall o :: 0 <= o < |c.outcomes| ==> !Keyed(row.marketId, row.code)(c.outcomes[o])
    ensures Sane(c.(outcomes := c.outcomes + [row]))
  {
    var next := c.(outcomes := c.outcomes + [row]);
    forall o | 0 <= o < |next.outcomes| ensures SaneOutcome(next, o) {
      assert o < |c.outcomes| ==> SaneOutcome(c, o);
    }
    forall m | 0 <= m < |next.markets| ensures SaneMarket(next, m) {
      assert SaneMarket(c, m);
    }
    forall o | 0 <= o < |c.outcomes| ensures c.outcomes[o].marketId != row.marketId || c.outcomes[o].code != row.code {
      assert !Keyed(row.marketId, row.code)(c.outcomes[o]);
    }
  }

  lemma UpsertOutcomeKeepsSane(c: Catalogue, m: nat, code: OutcomeCode, odds: real)
    requires Sane(c) && Priceable(c, m) && UpsertOutcome(c, m, code, odds).Ok?
    ensures Sane(UpsertOutcome(c, m, code, odds).value)
    ensures UpsertOutcome(c, m, code, odds).value.markets == c.markets
    ensures UpsertOutcome(c, m, code, odds).value.events == c.events
  {
    hide Sane, Rounded;
    if Where(c.outcomes, Keyed(m, code)) == [] {
      AppendOutcomeKeepsSane(c, Outcome(m, code, StoredOdds(odds).value, None));
    } else {
      PriceChangeKeepsSane(c, Where(c.outcomes, Keyed(m, code))[0], StoredOdds(odds).value);
    }
  }

  lemma PriceChangeKeepsSane(c: Catalogue, o: nat, stored: int)
    requires Sane(c) && o < |c.outcomes| && stored > 1000
    ensures Sane(c.(outcomes := c.outcomes[o := c.outcomes[o].(odds := stored)]))
  {
    SameKeysKeepSane(c, c.(outcomes := c.outcomes[o := c.outcomes[o].(odds := stored)]));
  }

  lemma UpdateOddsKeepsSane(c: Catalogue, o: nat, odds: Option<real>)
    requires Sane(c) && UpdateOdds(c, o, odds).Ok?
    ensures Sane(UpdateOdds(c, o, odds).value)
  {
    SameKeysKeepSane(c, UpdateOdds(c, o, odds).value);
  }

  /** Status, result, line and price changes keep every key; prices stay above 1.0 and no line is removed. */
  lemma SameKeysKeepSane(c: Catalogue, next: Catalogue)
    requires Sane(c)
    requires |next.events| == |c.events| && |next.markets| == |c.markets| && |next.outcomes| == |c.outcomes|
    requires forall m :: 0 <= m < |c.markets| ==>
      && next.markets[m].eventId == c.markets[m].eventId && next.markets[m].kind == c.markets[m].kind
      && (c.markets[m].line.Some? ==> next.markets[m].line.Some?)
    requires forall o :: 0 <= o < |c.outcomes| ==>
      && next.outcomes[o].marketId == c.outcomes[o].marketId && next.outcomes[o].code == c.outcomes[o].code
      && (next.outcomes[o].odds == c.outcomes[o].odds || next.outcomes[o].odds > 1000)
    ensures Sane(next)
  {
    forall m | 0 <= m < |next.markets| ensures SaneMarket(next, m) {
      assert SaneMarket(c, m);
    }
    forall o | 0 <= o < |next.outcomes| ensures SaneOutcome(next, o) {
      assert SaneOutcome(c, o);
    }
  }

  lemma UpdateStatusKeepsSane(c: Catalogue, m: nat, status: MarketStatus)
    requires Sane(c) && UpdateMarketStatus(c, m, status).Ok?
    ensures Sane(UpdateMarketStatus(c, m, status).value)
  {
    SameKeysKeepSane(c, UpdateMarketStatus(c, m, status).value);
  }

  /** The market's line may not be removed: it is a TOTALS market with an outcome. */
  ghost predicate Needed(c: Catalogue, m: nat) {
    m < |c.markets| && c.markets[m].kind == MarketTotals && exists o :: 0 <= o < |c.outcomes| && c.outcomes[o].marketId == m
  }

  /** A line may be stored at any time; removing it is sane exactly when no priced totals market needs it. */
  lemma UpdateLineKeepsSane(c: Catalogue, m: nat, line: Option<real>)
    requires Sane(c) && UpdateLine(c, m, line).Ok?
    ensures Sane(UpdateLine(c, m, line).value) <==> line.Some? || !Needed(c, m)
  {
    hide Rounded;
    var next := UpdateLine(c, m, line).value;
    forall k | 0 <= k < |next.markets| ensures SaneMarket(next, k) {
      assert SaneMarket(c, k);
    }
    if line.None? && Needed(c, m) {
      var o :| 0 <= o < |c.outcomes| && c.outcomes[o].marketId == m;
      assert !SaneOutcome(next, o);
    } else {
      forall o | 0 <= o < |next.outcomes| ensures SaneOutcome(next, o) {
        assert SaneOutcome(c, o);
      }
    }
  }

  lemma MoreEventsKeepSane(c: Catalogue, next: Catalogue)
    requires Sane(c) && next.markets == c.markets && next.outcomes == c.outcomes && |c.events| <= |next.events|
    ensures Sane(next)
  {
    forall m | 0 <= m < |next.markets| ensures SaneMarket(next, m) {
      assert SaneMarket(c, m);
    }
    forall o | 0 <= o < |next.outcomes| ensures SaneOutcome(next, o) {
      assert SaneOutcome(c, o);
    }
  }
}
