/** The rows of a created match or custom event, field by field. */
module Creation {
  import opened Sums
  import opened Domain
  import opened CatalogueOps
  import opened OddsSync
  import opened QuoteEffects
  import opened QuoteMeaning

  // ---------- outcomes are upserted ----------

  function QuotesFor(outcomes: seq<OutcomeInput>): seq<(OutcomeCode, real)> {
    seq(|outcomes|, i requires 0 <= i < |outcomes| => (outcomes[i].code, outcomes[i].odds))
  }

  lemma {:induction false} AddingIsUpserting(c: Catalogue, m: nat, outcomes: seq<OutcomeInput>)
    requires AddOutcomes(c, m, outcomes).Ok?
    ensures Upserts(c, m, QuotesFor(outcomes)) == Sync(AddOutcomes(c, m, outcomes).value, None)
  {
    hide UpsertOutcome;
    if |outcomes| > 0 {
      AddingIsUpserting(c, m, outcomes[..|outcomes| - 1]);
      assert QuotesFor(outcomes)[..|outcomes| - 1] == QuotesFor(outcomes[..|outcomes| - 1]);
    }
  }

  /** The last price an input names for a code. */
  predicate LastFor(outcomes: seq<OutcomeInput>, i: nat) {
    i < |outcomes| && forall j :: i < j < |outcomes| ==> outcomes[j].code != outcomes[i].code
  }

  lemma {:induction false} LastIsQuoted(outcomes: seq<OutcomeInput>, i: nat)
    requires LastFor(outcomes, i)
    ensures QuoteFor(QuotesFor(outcomes), outcomes[i].code) == Some(outcomes[i].odds)
  {
    var front := outcomes[..|outcomes| - 1];
    assert QuotesFor(outcomes)[..|outcomes| - 1] == QuotesFor(front);
    if i < |front| {
      assert outcomes[|outcomes| - 1].code != outcomes[i].code;
      LastIsQuoted(front, i);
    }
  }

  lemma {:induction false} UnnamedIsUnquoted(outcomes: seq<OutcomeInput>, code: OutcomeCode)
    requires forall i :: 0 <= i < |outcomes| ==> outcomes[i].code != code
    ensures QuoteFor(QuotesFor(outcomes), code) == None
  {
    if |outcomes| > 0 {
      assert QuotesFor(outcomes)[..|outcomes| - 1] == QuotesFor(outcomes[..|outcomes| - 1]);
      UnnamedIsUnquoted(outcomes[..|outcomes| - 1], code);
    }
  }

  /** The new market has exactly the codes of its input, each at the last price the input names for it. */
  ghost predicate HasOutcomes(c: Catalogue, m: nat, outcomes: seq<OutcomeInput>) {
    && (forall i: nat :: LastFor(outcomes, i) ==> PricedAt(c, m, outcomes[i].code, outcomes[i].odds))
    && (forall o :: 0 <= o < |c.outcomes| && c.outcomes[o].marketId == m ==>
          exists i :: 0 <= i < |outcomes| && outcomes[i].code == c.outcomes[o].code)
  }

  lemma NothingPricedYet(c: Catalogue, m: nat, code: OutcomeCode)
    requires forall o :: 0 <= o < |c.outcomes| ==> c.outcomes[o].marketId != m
    ensures PriceOf(c, m, code) == None
  {
    NoneIsFirst(c.outcomes, Keyed(m, code));
  }

  lemma OutcomesAreAdded(c: Catalogue, m: nat, outcomes: seq<OutcomeInput>)
    requires Sane(c) && Priceable(c, m) && AddOutcomes(c, m, outcomes).Ok?
    requires forall o :: 0 <= o < |c.outcomes| ==> c.outcomes[o].marketId != m
    ensures HasOutcomes(AddOutcomes(c, m, outcomes).value, m, outcomes)
  {
    var next, quotes := AddOutcomes(c, m, outcomes).value, QuotesFor(outcomes);
    AddingIsUpserting(c, m, outcomes);
    assert Sane(next) by {
      hide Sane;
      UpsertsKeepSane(c, m, quotes);
    }
    hide AddOutcomes, Upserts, Sane, PriceOf, QuoteFor, StoredOdds, PricedAt;
    forall i: nat | LastFor(outcomes, i) ensures PricedAt(next, m, outcomes[i].code, outcomes[i].odds) {
      LastIsQuoted(outcomes, i);
      UpsertsPrice(c, m, quotes, m, outcomes[i].code);
      TakenIsStorable(c, m, quotes, i);
      QuotedIsPricedAt(next, m, outcomes[i].code, outcomes[i].odds);
    }
    forall o | 0 <= o < |next.outcomes| && next.outcomes[o].marketId == m
      ensures exists i :: 0 <= i < |outcomes| && outcomes[i].code == next.outcomes[o].code
    {
      OnlyNamedIsPriced(c, next, m, outcomes, o);
    }
  }

  lemma OnlyNamedIsPriced(c: Catalogue, next: Catalogue, m: nat, outcomes: seq<OutcomeInput>, o: nat)
    requires Sane(next) && Upserts(c, m, QuotesFor(outcomes)) == Sync(next, None)
    requires forall i :: 0 <= i < |c.outcomes| ==> c.outcomes[i].marketId != m
    requires o < |next.outcomes| && next.outcomes[o].marketId == m
    ensures exists i :: 0 <= i < |outcomes| && outcomes[i].code == next.outcomes[o].code
  {
    var code := next.outcomes[o].code;
    PriceOfRow(next, o);
    UpsertsPrice(c, m, QuotesFor(outcomes), m, code);
    NothingPricedYet(c, m, code);
    if forall i :: 0 <= i < |outcomes| ==> outcomes[i].code != code {
      UnnamedIsUnquoted(outcomes, code);
      assert false;
    }
  }

  lemma {:induction false} UpsertsKeepSane(c: Catalogue, m: nat, quotes: seq<(OutcomeCode, real)>)
    requires Sane(c) && Priceable(c, m)
    ensures Sane(Upserts(c, m, quotes).cat) && Priceable(Upserts(c, m, quotes).cat, m)
  {
    hide Sane, UpsertOutcome;
    if |quotes| > 0 {
      UpsertsKeepSane(c, m, quotes[..|quotes| - 1]);
      var before := Upserts(c, m, quotes[..|quotes| - 1]);
      if before.error.None? && UpsertOutcome(before.cat, m, quotes[|quotes| - 1].0, quotes[|quotes| - 1].1).Ok? {
        UpsertOutcomeKeepsSane(before.cat, m, quotes[|quotes| - 1].0, quotes[|quotes| - 1].1);
      }
    }
  }

  // ---------- markets are appended ----------

  /** Rows that were there stay, and new ones belong to the market. */
  ghost predicate OnlyFor(c: Catalogue, next: Catalogue, m: nat) {
    && |c.outcomes| <= |next.outcomes| && next.events == c.events
    && (forall o :: 0 <= o < |c.outcomes| && c.outcomes[o].marketId != m ==> next.outcomes[o] == c.outcomes[o])
    && (forall o :: 0 <= o < |c.outcomes| ==> next.outcomes[o].marketId == c.outcomes[o].marketId)
    && (forall o :: |c.outcomes| <= o < |next.outcomes| ==> next.outcomes[o].marketId == m)
  }

  lemma OneRowRepriced(c: Catalogue, o: nat, stored: int, m: nat)
    requires o < |c.outcomes| && c.outcomes[o].marketId == m
    ensures OnlyFor(c, c.(outcomes := c.outcomes[o := c.outcomes[o].(odds := stored)]), m)
  {
  }

  lemma OneRowAppended(c: Catalogue, row: Outcome, m: nat)
    requires row.marketId == m
    ensures OnlyFor(c, c.(outcomes := c.outcomes + [row]), m)
  {
  }

  lemma UpsertOnlyFor(c: Catalogue, m: nat, code: OutcomeCode, odds: real)
    requires UpsertOutcome(c, m, code, odds).Ok?
    ensures OnlyFor(c, UpsertOutcome(c, m, code, odds).value, m)
  {
    hide StoredOdds, Where;
    var ids := Where(c.outcomes, Keyed(m, code));
    if ids != [] {
      var stored := StoredOdds(odds).value;
      assert Keyed(m, code)(c.outcomes[ids[0]]) && c.outcomes[ids[0]].marketId == m;
      OneRowRepriced(c, ids[0], stored, m);
    } else {
      OneRowAppended(c, Outcome(m, code, StoredOdds(odds).value, None), m);
    }
  }

  lemma {:induction false} AddingOnlyFor(c: Catalogue, m: nat, outcomes: seq<OutcomeInput>)
    requires AddOutcomes(c, m, outcomes).Ok?
    ensures OnlyFor(c, AddOutcomes(c, m, outcomes).value, m) && AddOutcomes(c, m, outcomes).value.markets == c.markets
  {
    if |outcomes| > 0 {
      var front, last := outcomes[..|outcomes| - 1], outcomes[|outcomes| - 1];
      AddingOnlyFor(c, m, front);
      var mid := AddOutcomes(c, m, front).value;
      UpsertOnlyFor(mid, m, last.code, last.odds);
      UpsertKeepsMarkets(mid, m, last.code, last.odds);
      hide UpsertOutcome;
    }
  }

  lemma UpsertKeepsMarkets(c: Catalogue, m: nat, code: OutcomeCode, odds: real)
    requires UpsertOutcome(c, m, code, odds).Ok?
    ensures UpsertOutcome(c, m, code, odds).value.markets == c.markets
  {
    hide StoredOdds;
  }

  /** The row of a market as its input asks for it. */
  function RowOf(e: nat, mk: MarketInput): Market {
    Market(e, mk.kind, if mk.line.Some? then StoredLine(mk.line.value) else None, MarketOpen)
  }

  /** The catalogue with one more market. */
  ghost predicate OneMore(c: Catalogue, next: Catalogue, e: nat, mk: MarketInput) {
    && next.events == c.events && next.markets == c.markets + [RowOf(e, mk)]
    && |c.outcomes| <= |next.outcomes| && next.outcomes[..|c.outcomes|] == c.outcomes
    && (forall o :: |c.outcomes| <= o < |next.outcomes| ==> next.outcomes[o].marketId == |c.markets|)
    && HasOutcomes(next, |c.markets|, mk.outcomes)
  }

  lemma MarketIsAdded(c: Catalogue, e: nat, mk: MarketInput)
    requires Sane(c) && (mk.kind == MarketTotals ==> mk.line.Some?) && AddMarket(c, e, mk).Ok?
    ensures OneMore(c, AddMarket(c, e, mk).value, e, mk) && Sane(AddMarket(c, e, mk).value)
  {
    var m, lined := |c.markets|, InsertMarket(c, e, mk.kind, mk.line).value;
    InsertMarketKeepsSane(c, e, mk.kind, mk.line);
    assert lined.markets == c.markets + [RowOf(e, mk)] && lined.outcomes == c.outcomes;
    assert Priceable(lined, m);
    forall o | 0 <= o < |c.outcomes| ensures c.outcomes[o].marketId != m {
      assert SaneOutcome(c, o);
    }
    hide StoredLine, AddOutcomes, Sane, HasOutcomes;
    OutcomesAreAdded(lined, m, mk.outcomes);
    AddingOnlyFor(lined, m, mk.outcomes);
    AddingIsUpserting(lined, m, mk.outcomes);
    UpsertsKeepSane(lined, m, QuotesFor(mk.outcomes));
  }

  /** The catalogue with these markets more, in order, each with its outcomes. */
  ghost predicate ManyMore(c: Catalogue, next: Catalogue, e: nat, markets: seq<MarketInput>) {
    && next.events == c.events && |next.markets| == |c.markets| + |markets| && next.markets[..|c.markets|] == c.markets
    && (forall k :: 0 <= k < |markets| ==> MarketAt(c, next, e, markets, k))
    && |c.outcomes| <= |next.outcomes| && next.outcomes[..|c.outcomes|] == c.outcomes
    && (forall o :: |c.outcomes| <= o < |next.outcomes| ==> |c.markets| <= next.outcomes[o].marketId < |next.markets|)
  }

  ghost predicate MarketAt(c: Catalogue, next: Catalogue, e: nat, markets: seq<MarketInput>, k: nat)
    requires k < |markets| && |next.markets| == |c.markets| + |markets|
  {
    next.markets[|c.markets| + k] == RowOf(e, markets[k]) && HasOutcomes(next, |c.markets| + k, markets[k].outcomes)
  }

  lemma OutcomesStay(c: Catalogue, next: Catalogue, e: nat, mk: MarketInput, m: nat, outcomes: seq<OutcomeInput>)
    requires OneMore(c, next, e, mk) && m < |c.markets| && HasOutcomes(c, m, outcomes)
    ensures HasOutcomes(next, m, outcomes)
  {
    hide StoredOdds, StoredLine;
    forall o | 0 <= o < |next.outcomes| && next.outcomes[o].marketId == m
      ensures o < |c.outcomes| && next.outcomes[o] == c.outcomes[o]
    {
      assert o < |c.outcomes| ==> next.outcomes[..|c.outcomes|][o] == c.outcomes[o];
    }
    forall i: nat | LastFor(outcomes, i) ensures PricedAt(next, m, outcomes[i].code, outcomes[i].odds) {
      assert PricedAt(c, m, outcomes[i].code, outcomes[i].odds);
      var o :| 0 <= o < |c.outcomes| && c.outcomes[o].marketId == m && c.outcomes[o].code == outcomes[i].code;
      assert next.outcomes[..|c.outcomes|][o] == c.outcomes[o];
    }
  }

  lemma {:induction false} MarketsAreAdded(c: Catalogue, e: nat, markets: seq<MarketInput>)
    requires Sane(c) && (forall k :: 0 <= k < |markets| ==> CatalogueOps.Lined(markets[k])) && AddMarkets(c, e, markets).Ok?
    ensures ManyMore(c, AddMarkets(c, e, markets).value, e, markets) && Sane(AddMarkets(c, e, markets).value)
  {
    hide Sane, AddMarket, HasOutcomes, OneMore, StoredLine;
    var next := AddMarkets(c, e, markets).value;
    if |markets| == 0 {
      assert next.markets[..|c.markets|] == c.markets && next.outcomes[..|c.outcomes|] == c.outcomes;
    } else {
      var front, last := markets[..|markets| - 1], markets[|markets| - 1];
      MarketsAreAdded(c, e, front);
      var mid := AddMarkets(c, e, front).value;
      MarketIsAdded(mid, e, last);
      MoreIsMany(c, mid, next, e, markets);
    }
  }

  lemma MoreIsMany(c: Catalogue, mid: Catalogue, next: Catalogue, e: nat, markets: seq<MarketInput>)
    requires |markets| > 0 && ManyMore(c, mid, e, markets[..|markets| - 1]) && OneMore(mid, next, e, markets[|markets| - 1])
    ensures ManyMore(c, next, e, markets)
  {
    hide HasOutcomes, StoredLine;
    var front := markets[..|markets| - 1];
    assert next.markets[..|c.markets|] == mid.markets[..|c.markets|];
    assert next.outcomes[..|c.outcomes|] == next.outcomes[..|mid.outcomes|][..|c.outcomes|];
    forall k | 0 <= k < |markets| ensures MarketAt(c, next, e, markets, k) {
      if k < |front| {
        assert MarketAt(c, mid, e, front, k);
        OutcomesStay(mid, next, e, markets[|markets| - 1], |c.markets| + k, markets[k].outcomes);
      }
    }
    forall o | |c.outcomes| <= o < |next.outcomes| ensures |c.markets| <= next.outcomes[o].marketId < |next.markets| {
      assert o < |mid.outcomes| ==> next.outcomes[..|mid.outcomes|][o] == mid.outcomes[o];
    }
  }

  // ---------- the two creating calls ----------

  lemma EventIsSane(c: Catalogue, ev: Event)
    requires Sane(c)
    ensures Sane(c.(events := c.events + [ev]))
  {
    MoreEventsKeepSane(c, c.(events := c.events + [ev]));
  }

  /** A created match is upcoming, manual and without a score, and its markets are open with their lines and prices. */
  lemma CreateMatchWrites(c: Catalogue, input: MatchInput)
    requires Sane(c) && CreateMatch(c, true, input).Ok?
    ensures input.startsAt.Some?
    ensures ManyMore(c.(events := c.events + [Event(SourceManual, None, input.startsAt.value, EventUpcoming, NoScores)]),
                     CreateMatch(c, true, input).value, |c.events|, input.markets)
  {
    var ev := Event(SourceManual, None, input.startsAt.value, EventUpcoming, NoScores);
    assert forall k :: 0 <= k < |input.markets| ==> ValidMatchMarket(input.markets[k]) && CatalogueOps.Lined(input.markets[k]);
    hide Sane, AddMarkets, ManyMore;
    EventIsSane(c, ev);
    MarketsAreAdded(c.(events := c.events + [ev]), |c.events|, input.markets);
  }

  /** A created custom event is upcoming, and its one market is open with outcomes opt_1 .. opt_N at their prices. */
  lemma CreateCustomWrites(c: Catalogue, input: CustomInput, i: nat)
    requires Sane(c) && CreateCustomEvent(c, input).Ok? && i < |input.outcomes|
    ensures input.startsAt.Some? && input.outcomes[i].odds.Some?
    ensures var next, m := CreateCustomEvent(c, input).value, |c.markets|;
      && next.events == c.events + [Event(SourceCustom, None, input.startsAt.value, EventUpcoming, NoScores)]
      && next.markets == c.markets + [Market(|c.events|, MarketCustom, None, MarketOpen)]
      && |c.outcomes| <= |next.outcomes| && next.outcomes[..|c.outcomes|] == c.outcomes
      && PricedAt(next, m, OutcomeOpt(i + 1), input.outcomes[i].odds.value)
      && (forall o :: |c.outcomes| <= o < |next.outcomes| ==>
            next.outcomes[o].marketId == m && exists k :: 1 <= k <= |input.outcomes| && next.outcomes[o].code == OutcomeOpt(k))
  {
    var ev, mk := Event(SourceCustom, None, input.startsAt.value, EventUpcoming, NoScores), CustomMarket(input);
    CodesAreNumbered(input, mk.outcomes);
    hide Sane, AddMarket, PricedAt, CustomOutcomes, LastFor;
    EventIsSane(c, ev);
    var at := c.(events := c.events + [ev]);
    MarketIsAdded(at, |c.events|, mk);
    NumberedRows(at, CreateCustomEvent(c, input).value, |c.events|, mk, |input.outcomes|);
  }

  /** The codes are opt_1 .. opt_N, each named once. */
  lemma CodesAreNumbered(input: CustomInput, outcomes: seq<OutcomeInput>)
    requires ValidCustom(input) && outcomes == CustomOutcomes(input)
    ensures |outcomes| == |input.outcomes|
    ensures forall i: nat :: i < |outcomes| ==>
      LastFor(outcomes, i) && outcomes[i].code == OutcomeOpt(i + 1) && input.outcomes[i].odds == Some(outcomes[i].odds)
  {
  }

  lemma NumberedRows(c: Catalogue, next: Catalogue, e: nat, mk: MarketInput, n: nat)
    requires OneMore(c, next, e, mk) && |mk.outcomes| == n && forall i: nat :: i < n ==> mk.outcomes[i].code == OutcomeOpt(i + 1)
    ensures forall o :: |c.outcomes| <= o < |next.outcomes| ==>
      next.outcomes[o].marketId == |c.markets| && exists k :: 1 <= k <= n && next.outcomes[o].code == OutcomeOpt(k)
  {
    hide PricedAt, LastFor;
    forall o | |c.outcomes| <= o < |next.outcomes|
      ensures next.outcomes[o].marketId == |c.markets| && exists k :: 1 <= k <= n && next.outcomes[o].code == OutcomeOpt(k)
    {
      assert next.outcomes[o].marketId == |c.markets|;
      var j :| 0 <= j < n && mk.outcomes[j].code == next.outcomes[o].code;
      assert next.outcomes[o].code == OutcomeOpt(j + 1);
    }
  }

  // ---------- when the creating calls are accepted ----------

  predicate StorableOutcomes(outcomes: seq<OutcomeInput>) {
    forall i :: 0 <= i < |outcomes| ==> StoredOdds(outcomes[i].odds).Some?
  }

  lemma {:induction false} AddOutcomesExactlyWhen(c: Catalogue, m: nat, outcomes: seq<OutcomeInput>)
    requires m < |c.markets|
    ensures AddOutcomes(c, m, outcomes).Ok? <==> StorableOutcomes(outcomes)
  {
    hide StoredOdds;
    if |outcomes| > 0 {
      var front, last := outcomes[..|outcomes| - 1], outcomes[|outcomes| - 1];
      AddOutcomesExactlyWhen(c, m, front);
      assert outcomes == front + [last];
      if AddOutcomes(c, m, front).Ok? {
        AddingOnlyFor(c, m, front);
      }
    }
  }

  /** The line, if one is given, and every price can be stored. */
  predicate Storable(mk: MarketInput) {
    (mk.line.Some? ==> StoredLine(mk.line.value).Some?) && StorableOutcomes(mk.outcomes)
  }

  lemma AddMarketExactlyWhen(c: Catalogue, e: nat, mk: MarketInput)
    requires e < |c.events|
    ensures AddMarket(c, e, mk).Ok? <==> Storable(mk)
    ensures AddMarket(c, e, mk).Ok? ==> AddMarket(c, e, mk).value.events == c.events
  {
    hide StoredLine, StoredOdds, AddOutcomes, StorableOutcomes;
    if InsertMarket(c, e, mk.kind, mk.line).Ok? {
      var lined := InsertMarket(c, e, mk.kind, mk.line).value;
      AddOutcomesExactlyWhen(lined, |c.markets|, mk.outcomes);
      if AddOutcomes(lined, |c.markets|, mk.outcomes).Ok? {
        AddingOnlyFor(lined, |c.markets|, mk.outcomes);
      }
    }
  }

  lemma {:induction false} AddMarketsExactlyWhen(c: Catalogue, e: nat, markets: seq<MarketInput>)
    requires e < |c.events|
    ensures AddMarkets(c, e, markets).Ok? <==> forall k :: 0 <= k < |markets| ==> Storable(markets[k])
    ensures AddMarkets(c, e, markets).Ok? ==> AddMarkets(c, e, markets).value.events == c.events
  {
    hide AddMarket, Storable;
    if |markets| > 0 {
      var front, last := markets[..|markets| - 1], markets[|markets| - 1];
      AddMarketsExactlyWhen(c, e, front);
      assert markets == front + [last];
      if AddMarkets(c, e, front).Ok? {
        AddMarketExactlyWhen(AddMarkets(c, e, front).value, e, last);
      }
    }
  }

  /** A named outcome of a match, priced above 1.0, with a code its market can have. */
  predicate FitsMatch(kind: MarketType, oc: OutcomeInput) {
    && oc.text != "" && oc.odds > 1.0
    && (kind == MarketML ==> oc.code == OutcomeHome || oc.code == OutcomeDraw || oc.code == OutcomeAway)
    && (kind == MarketTotals ==> oc.code == OutcomeOver || oc.code == OutcomeUnder)
  }

  /** An ML market, or a TOTALS market with a line, that has at least one outcome. */
  predicate FitsMarket(mk: MarketInput) {
    && (mk.kind == MarketML || (mk.kind == MarketTotals && mk.line.Some?)) && |mk.outcomes| > 0
    && forall i :: 0 <= i < |mk.outcomes| ==> FitsMatch(mk.kind, mk.outcomes[i])
  }

  lemma FittingIsValid(mk: MarketInput)
    ensures ValidMatchMarket(mk) <==> FitsMarket(mk)
  {
    if ValidMatchMarket(mk) {
      assert forall i :: 0 <= i < |mk.outcomes| ==> IsValidMatchOutcomeCode(mk.kind, mk.outcomes[i].code);
    }
  }

  /** A match is created in a known league, with title, start and teams, from fitting and storable markets of which one is ML. */
  lemma CreateMatchExactlyWhen(c: Catalogue, leagueFound: bool, input: MatchInput)
    ensures CreateMatch(c, leagueFound, input).Ok?
       <==> && leagueFound && input.title != "" && input.startsAt.Some? && input.home != "" && input.away != ""
            && (forall k :: 0 <= k < |input.markets| ==> FitsMarket(input.markets[k]) && Storable(input.markets[k]))
            && (exists k :: 0 <= k < |input.markets| && input.markets[k].kind == MarketML)
  {
    forall k | 0 <= k < |input.markets| ensures ValidMatchMarket(input.markets[k]) <==> FitsMarket(input.markets[k]) {
      FittingIsValid(input.markets[k]);
    }
    hide ValidMatchMarket, FitsMarket, AddMarkets, Storable;
    if ValidMatch(input) {
      var ev := Event(SourceManual, None, input.startsAt.value, EventUpcoming, NoScores);
      AddMarketsExactlyWhen(c.(events := c.events + [ev]), |c.events|, input.markets);
    }
  }

  /** A named outcome of a custom event with a storable price above 1.0. */
  predicate FitsCustom(oc: CustomOutcomeInput) {
    && oc.text.Some? && oc.text.value != "" && oc.odds.Some? && oc.odds.value > 1.0 && StoredOdds(oc.odds.value).Some?
  }

  /** A custom event is created with a title, a start and two or more fitting outcomes. */
  lemma CreateCustomExactlyWhen(c: Catalogue, input: CustomInput)
    ensures CreateCustomEvent(c, input).Ok?
       <==> && input.title != "" && input.startsAt.Some? && |input.outcomes| >= 2
            && (forall i :: 0 <= i < |input.outcomes| ==> FitsCustom(input.outcomes[i]))
  {
    hide StoredOdds, AddMarket;
    if ValidCustom(input) {
      var ev := Event(SourceCustom, None, input.startsAt.value, EventUpcoming, NoScores);
      AddMarketExactlyWhen(c.(events := c.events + [ev]), |c.events|, CustomMarket(input));
      forall i | 0 <= i < |input.outcomes| ensures CustomMarket(input).outcomes[i].odds == input.outcomes[i].odds.value {
      }
      assert Storable(CustomMarket(input)) <==> StorableOutcomes(CustomMarket(input).outcomes);
    }
  }
}
