/** What synchronising an event's quotes decides: every price, both statuses, and what an interrupted attempt leaves. */
module QuoteEffects {
  import opened Sums
  import opened Domain
  import opened Plans
  import opened CatalogueOps
  import opened OddsSync
  import Lifecycle

  // ---------- prices ----------

  /** The stored price of a market's outcome, None when the market does not have it. */
  function PriceOf(c: Catalogue, m: nat, code: OutcomeCode): Option<int> {
    match First(c.outcomes, Keyed(m, code))
    case None => None
    case Some(o) => Some(c.outcomes[o].odds)
  }

  /** The price quoted for a code. */
  function QuoteFor(quotes: seq<(OutcomeCode, real)>, code: OutcomeCode): Option<real> {
    if |quotes| == 0 then None
    else if quotes[|quotes| - 1].0 == code then Some(quotes[|quotes| - 1].1)
    else QuoteFor(quotes[..|quotes| - 1], code)
  }

  /** The quoted price if there is one, else the stored one. */
  function Repriced(quotes: seq<(OutcomeCode, real)>, c: Catalogue, m: nat, code: OutcomeCode): Option<int> {
    match QuoteFor(quotes, code)
    case Some(odds) => StoredOdds(odds)
    case None => PriceOf(c, m, code)
  }

  lemma PricedIsPrice(c: Catalogue, m: nat, code: OutcomeCode, stored: Option<int>)
    ensures Priced(c, m, code, stored) <==> stored.Some? && PriceOf(c, m, code) == stored
  {
    hide Where;
  }

  lemma UpsertKeepsAbsent(c: Catalogue, m: nat, code: OutcomeCode, odds: real, m': nat, code': OutcomeCode)
    requires UpsertOutcome(c, m, code, odds).Ok? && (m', code') != (m, code) && PriceOf(c, m', code') == None
    ensures PriceOf(UpsertOutcome(c, m, code, odds).value, m', code') == None
  {
    hide StoredOdds, Where;
    var next := UpsertOutcome(c, m, code, odds).value;
    assert Where(c.outcomes, Keyed(m', code')) == [];
    if Where(c.outcomes, Keyed(m, code)) == [] {
      assert !Keyed(m', code')(next.outcomes[|c.outcomes|]);
      WhereAppend(c.outcomes, next.outcomes[|c.outcomes|], Keyed(m', code'));
    } else {
      WhereSame(c.outcomes, next.outcomes, Keyed(m', code'));
    }
  }

  lemma UpsertPrice(c: Catalogue, m: nat, code: OutcomeCode, odds: real, m': nat, code': OutcomeCode)
    requires UpsertOutcome(c, m, code, odds).Ok?
    ensures PriceOf(UpsertOutcome(c, m, code, odds).value, m', code')
         == if (m', code') == (m, code) then StoredOdds(odds) else PriceOf(c, m', code')
  {
    hide StoredOdds, UpsertOutcome, PriceOf, Priced;
    var next := UpsertOutcome(c, m, code, odds).value;
    if (m', code') == (m, code) {
      UpsertPrices(c, m, code, odds);
      PricedIsPrice(next, m, code, StoredOdds(odds));
    } else if PriceOf(c, m', code').Some? {
      PricedIsPrice(c, m', code', PriceOf(c, m', code'));
      UpsertKeepsOthersPriced(c, m, code, odds, m', code', PriceOf(c, m', code'));
      PricedIsPrice(next, m', code', PriceOf(c, m', code'));
    } else {
      UpsertKeepsAbsent(c, m, code, odds, m', code');
    }
  }

  /** Upserting quotes reprices exactly the quoted codes of that market. */
  lemma {:induction false} UpsertsPrice(c: Catalogue, m: nat, quotes: seq<(OutcomeCode, real)>, m': nat, code: OutcomeCode)
    requires Upserts(c, m, quotes).error.None?
    ensures PriceOf(Upserts(c, m, quotes).cat, m', code) == Repriced(if m' == m then quotes else [], c, m', code)
  {
    hide StoredOdds, UpsertOutcome, PriceOf;
    if |quotes| > 0 {
      var front, last := quotes[..|quotes| - 1], quotes[|quotes| - 1];
      UpsertsPrice(c, m, front, m', code);
      UpsertPrice(Upserts(c, m, front).cat, m, last.0, last.1, m', code);
    }
  }

  /** The line the ML market will be priced from. */
  function UsableML(quotes: Option<seq<ApiMarket>>): Option<OddsLine> {
    var offered := if quotes.Some? then quotes.value else [];
    match First(offered, OfKind(ApiML))
    case None => None
    case Some(a) =>
      match First(offered[a].lines, ValidML())
      case None => None
      case Some(k) => Some(offered[a].lines[k])
  }

  /** The line the TOTALS market will be priced from. */
  function UsableTotals(quotes: Option<seq<ApiMarket>>): Option<OddsLine> {
    var offered := if quotes.Some? then quotes.value else [];
    match First(offered, OfKind(ApiTotals))
    case None => None
    case Some(a) =>
      match MainLine(offered[a].lines)
      case None => None
      case Some(k) => Some(offered[a].lines[k])
  }

  lemma UsableLinesAreValid(quotes: Option<seq<ApiMarket>>)
    ensures UsableML(quotes).Some? ==> ValidML()(UsableML(quotes).value)
    ensures UsableTotals(quotes).Some? ==> ValidTotals(UsableTotals(quotes).value)
  {
    var offered := if quotes.Some? then quotes.value else [];
    var a := First(offered, OfKind(ApiML));
    if a.Some? {
      FirstExists(offered[a.value].lines, ValidML());
    }
  }

  /** One market took these quotes and this status: its quoted codes are repriced, no other price and no other market moves. */
  ghost predicate Took(c: Catalogue, next: Catalogue, m: nat, quotes: seq<(OutcomeCode, real)>, status: MarketStatus) {
    && OneMarketMoved(c, next, m) && next.markets[m].status == status
    && forall m': nat, code :: PriceOf(next, m', code) == Repriced(if m' == m then quotes else [], c, m', code)
  }

  lemma OfferTakes(c: Catalogue, m: nat, quotes: seq<(OutcomeCode, real)>)
    requires m < |c.markets| && Offer(c, m, quotes).error.None?
    ensures Took(c, Offer(c, m, quotes).cat, m, quotes, MarketOpen)
    ensures Offer(c, m, quotes).cat.markets[m].line == c.markets[m].line
  {
    hide Upserts, StoredOdds, Repriced;
    UpsertsKeepMarkets(c, m, quotes);
    OfferKeepsKinds(c, m, quotes);
    var next := Offer(c, m, quotes).cat;
    forall m': nat, code ensures PriceOf(next, m', code) == Repriced(if m' == m then quotes else [], c, m', code) {
      UpsertsPrice(c, m, quotes, m', code);
      assert PriceOf(next, m', code) == PriceOf(Upserts(c, m, quotes).cat, m', code);
    }
  }

  lemma NothingRepriced(c: Catalogue, m: nat, code: OutcomeCode)
    ensures Repriced([], c, m, code) == PriceOf(c, m, code)
  {
  }

  lemma SuspendTakes(c: Catalogue, m: nat)
    requires m < |c.markets|
    ensures Took(c, EnsureStatus(c, m, MarketSuspended), m, [], MarketSuspended)
  {
    hide StoredOdds, Repriced;
    var next := EnsureStatus(c, m, MarketSuspended);
    forall m': nat, code ensures PriceOf(next, m', code) == Repriced([], c, m', code) {
      NothingRepriced(c, m', code);
    }
  }

  lemma MLTakes(c: Catalogue, m: nat, lines: seq<OddsLine>)
    requires m < |c.markets| && ApplyML(c, m, lines).error.None?
    ensures var next := ApplyML(c, m, lines).cat;
      match First(lines, ValidML())
      case Some(k) => ValidML()(lines[k]) && Took(c, next, m, MLQuotes(lines[k]), MarketOpen)
      case None => Took(c, next, m, [], MarketSuspended)
  {
    FirstExists(lines, ValidML());
    hide First, Offer, EnsureStatus, MLQuotes, Took, ValidML;
    var best := First(lines, ValidML());
    if best.Some? {
      OfferTakes(c, m, MLQuotes(lines[best.value]));
    } else {
      SuspendTakes(c, m);
    }
  }

  /** The market carries this line: rounded when stored, or already stored exactly. */
  predicate Carries(c: Catalogue, m: nat, line: real) {
    m < |c.markets| && (c.markets[m].line == StoredLine(line) || SameLine(c.markets[m].line, line))
  }

  lemma LinedTakes(c: Catalogue, lined: Catalogue, next: Catalogue, m: nat, quotes: seq<(OutcomeCode, real)>)
    requires OneMarketMoved(c, lined, m) && lined.outcomes == c.outcomes && Took(lined, next, m, quotes, MarketOpen)
    ensures Took(c, next, m, quotes, MarketOpen)
  {
    hide StoredOdds, Repriced, PriceOf;
    forall m': nat, code ensures PriceOf(next, m', code) == Repriced(if m' == m then quotes else [], c, m', code) {
      RepricedSameOutcomes(if m' == m then quotes else [], c, lined, m', code);
    }
  }

  lemma RepricedSameOutcomes(quotes: seq<(OutcomeCode, real)>, c: Catalogue, next: Catalogue, m: nat, code: OutcomeCode)
    requires next.outcomes == c.outcomes
    ensures Repriced(quotes, next, m, code) == Repriced(quotes, c, m, code)
  {
    hide StoredOdds, First;
  }

  lemma TotalsTake(c: Catalogue, m: nat, lines: seq<OddsLine>)
    requires m < |c.markets| && ApplyTotals(c, m, lines).error.None?
    ensures var next := ApplyTotals(c, m, lines).cat;
      match MainLine(lines)
      case Some(k) => Took(c, next, m, TotalsQuotes(lines[k]), MarketOpen) && Carries(next, m, lines[k].hdp.value)
      case None => Took(c, next, m, [], MarketSuspended)
  {
    var best := MainLine(lines);
    assert best.Some? ==> best.value < |lines| && ValidTotals(lines[best.value]);
    hide Offer, EnsureStatus, TotalsQuotes, Took, IsMainLine, StoredLine, SameLine, MainLine;
    if best.None? {
      SuspendTakes(c, m);
    } else {
      var quotes, line := TotalsQuotes(lines[best.value]), lines[best.value].hdp.value;
      var lined := if SameLine(c.markets[m].line, line) then c else UpdateLine(c, m, Some(line)).value;
      assert OneMarketMoved(c, lined, m) && Carries(lined, m, line);
      OfferTakes(lined, m, quotes);
      LinedTakes(c, lined, Offer(lined, m, quotes).cat, m, quotes);
    }
  }

  /** Pricing the ML market moves no other market into or out of a slot. */
  lemma MLKeepsTotalsSlot(c: Catalogue, e: nat, quotes: seq<ApiMarket>)
    ensures First(SyncMarket(c, e, MarketML, quotes).cat.markets, MarketOfKind(e, MarketTotals))
         == First(c.markets, MarketOfKind(e, MarketTotals))
  {
    hide OddsSync.ApplyML;
    var slot := First(c.markets, MarketOfKind(e, MarketML));
    if slot.Some? {
      var api := First(quotes, OfKind(ApiML));
      if api.Some? {
        ApplyMLTwice(c, slot.value, quotes[api.value].lines);
      }
      SameSlots(c, SyncMarket(c, e, MarketML, quotes).cat, slot.value, e, MarketTotals);
    }
  }

  // ---------- the whole sync ----------

  function Offers(quotes: Option<seq<ApiMarket>>): seq<ApiMarket> {
    if quotes.Some? then quotes.value else []
  }

  /** The prices the ML market is offered at: those of the first usable line, if any. */
  function MLOffer(quotes: Option<seq<ApiMarket>>): seq<(OutcomeCode, real)> {
    match UsableML(quotes)
    case Some(l) => if ValidML()(l) then MLQuotes(l) else []
    case None => []
  }

  /** The prices the TOTALS market is offered at: those of the main line, if any. */
  function TotalsOffer(quotes: Option<seq<ApiMarket>>): seq<(OutcomeCode, real)> {
    match UsableTotals(quotes)
    case Some(l) => if ValidTotals(l) then TotalsQuotes(l) else []
    case None => []
  }

  function OpenIf(usable: bool): MarketStatus {
    if usable then MarketOpen else MarketSuspended
  }

  lemma MLStep(c: Catalogue, e: nat, quotes: Option<seq<ApiMarket>>, m: nat)
    requires First(c.markets, MarketOfKind(e, MarketML)) == Some(m)
    requires SyncMarket(c, e, MarketML, Offers(quotes)).error.None?
    ensures Took(c, SyncMarket(c, e, MarketML, Offers(quotes)).cat, m, MLOffer(quotes), OpenIf(UsableML(quotes).Some?))
  {
    FirstExists(c.markets, MarketOfKind(e, MarketML));
    hide First, ApplyML, EnsureStatus, MLQuotes, Took, ValidML;
    var api := First(Offers(quotes), OfKind(ApiML));
    if api.Some? {
      FirstExists(Offers(quotes), OfKind(ApiML));
      MLTakes(c, m, Offers(quotes)[api.value].lines);
    } else {
      SuspendTakes(c, m);
    }
  }

  lemma TotalsStep(c: Catalogue, e: nat, quotes: Option<seq<ApiMarket>>, t: nat)
    requires First(c.markets, MarketOfKind(e, MarketTotals)) == Some(t)
    requires SyncMarket(c, e, MarketTotals, Offers(quotes)).error.None?
    ensures var next := SyncMarket(c, e, MarketTotals, Offers(quotes)).cat;
      && Took(c, next, t, TotalsOffer(quotes), OpenIf(UsableTotals(quotes).Some?))
      && (UsableTotals(quotes).Some? ==> UsableTotals(quotes).value.hdp.Some? && Carries(next, t, UsableTotals(quotes).value.hdp.value))
  {
    FirstExists(c.markets, MarketOfKind(e, MarketTotals));
    hide First, ApplyTotals, EnsureStatus, TotalsQuotes, Took, IsMainLine, Carries;
    var api := First(Offers(quotes), OfKind(ApiTotals));
    if api.Some? {
      FirstExists(Offers(quotes), OfKind(ApiTotals));
      UsableLinesAreValid(quotes);
      TotalsTake(c, t, Offers(quotes)[api.value].lines);
    } else {
      SuspendTakes(c, t);
    }
  }

  /**
   * After a complete sync the ML market is open when the bookmaker has a usable line and suspended otherwise. Every code
   * of it that the line quotes has the quoted price; every other code it had keeps its old price and stays on offer.
   */
  lemma MLFollowsQuotes(c: Catalogue, e: nat, quotes: Option<seq<ApiMarket>>, m: nat)
    requires First(c.markets, MarketOfKind(e, MarketML)) == Some(m) && ApplyEvent(c, e, quotes).error.None?
    ensures var next := ApplyEvent(c, e, quotes).cat;
      && m < |next.markets| && next.markets[m].status == OpenIf(UsableML(quotes).Some?)
      && forall code :: PriceOf(next, m, code) == Repriced(MLOffer(quotes), c, m, code)
  {
    SlotsDiffer(c, e, m);
    hide SyncMarket, UsableML, UsableTotals, First, MLOffer, TotalsOffer, Repriced, PriceOf, StoredLine, SameLine;
    MLStep(c, e, quotes, m);
    MLKeepsTotalsSlot(c, e, Offers(quotes));
    var mid := SyncMarket(c, e, MarketML, Offers(quotes)).cat;
    var t := First(mid.markets, MarketOfKind(e, MarketTotals));
    if t.Some? {
      TotalsStep(mid, e, quotes, t.value);
      forall code ensures PriceOf(ApplyEvent(c, e, quotes).cat, m, code) == PriceOf(mid, m, code) {
        NothingRepriced(mid, m, code);
      }
    } else {
      NoSlotNoSync(mid, e, MarketTotals, Offers(quotes));
    }
  }

  lemma SlotsDiffer(c: Catalogue, e: nat, m: nat)
    requires First(c.markets, MarketOfKind(e, MarketML)) == Some(m)
    ensures First(c.markets, MarketOfKind(e, MarketTotals)) != Some(m)
  {
    FirstExists(c.markets, MarketOfKind(e, MarketML));
    FirstExists(c.markets, MarketOfKind(e, MarketTotals));
  }

  lemma NoSlotNoSync(c: Catalogue, e: nat, kind: MarketType, quotes: seq<ApiMarket>)
    requires First(c.markets, MarketOfKind(e, kind)) == None
    ensures SyncMarket(c, e, kind, quotes) == Sync(c, None)
  {
  }

  /**
   * After a complete sync the TOTALS market is open with the main line when there is one and suspended otherwise; its
   * quoted codes have the main line's prices and every other code keeps its old price.
   */
  lemma TotalsFollowQuotes(c: Catalogue, e: nat, quotes: Option<seq<ApiMarket>>, t: nat)
    requires First(c.markets, MarketOfKind(e, MarketTotals)) == Some(t) && ApplyEvent(c, e, quotes).error.None?
    ensures var next := ApplyEvent(c, e, quotes).cat;
      && t < |next.markets| && next.markets[t].status == OpenIf(UsableTotals(quotes).Some?)
      && (forall code :: PriceOf(next, t, code) == Repriced(TotalsOffer(quotes), c, t, code))
      && (UsableTotals(quotes).Some? ==> UsableTotals(quotes).value.hdp.Some? && Carries(next, t, UsableTotals(quotes).value.hdp.value))
  {
    hide SyncMarket, UsableML, UsableTotals, First, MLOffer, TotalsOffer, Repriced, PriceOf, StoredLine, SameLine;
    MLKeepsTotalsSlot(c, e, Offers(quotes));
    var mid := SyncMarket(c, e, MarketML, Offers(quotes)).cat;
    TotalsStep(mid, e, quotes, t);
    var m := First(c.markets, MarketOfKind(e, MarketML));
    if m.Some? {
      SlotsDiffer(c, e, m.value);
      MLStep(c, e, quotes, m.value);
    } else {
      NoSlotNoSync(c, e, MarketML, Offers(quotes));
    }
    forall code ensures Repriced(TotalsOffer(quotes), mid, t, code) == Repriced(TotalsOffer(quotes), c, t, code) {
      NothingRepriced(c, t, code);
      RepricedSamePrice(TotalsOffer(quotes), c, mid, t, code);
    }
  }

  lemma RepricedSamePrice(quotes: seq<(OutcomeCode, real)>, c: Catalogue, next: Catalogue, m: nat, code: OutcomeCode)
    requires PriceOf(next, m, code) == PriceOf(c, m, code)
    ensures Repriced(quotes, next, m, code) == Repriced(quotes, c, m, code)
  {
    hide StoredOdds, PriceOf;
  }

  // ---------- when a whole market is current ----------

  /** Every outcome row of the market is quoted. */
  predicate Covered(c: Catalogue, m: nat, quotes: seq<(OutcomeCode, real)>) {
    forall o :: 0 <= o < |c.outcomes| && c.outcomes[o].marketId == m ==> QuoteFor(quotes, c.outcomes[o].code).Some?
  }

  /** Every outcome row of the market carries its quoted price. */
  predicate Current(c: Catalogue, m: nat, quotes: seq<(OutcomeCode, real)>) {
    forall o :: 0 <= o < |c.outcomes| && c.outcomes[o].marketId == m ==> IsCurrent(c.outcomes[o], quotes)
  }

  predicate IsCurrent(oc: Outcome, quotes: seq<(OutcomeCode, real)>) {
    QuoteFor(quotes, oc.code).Some? && StoredOdds(QuoteFor(quotes, oc.code).value) == Some(oc.odds)
  }

  lemma PriceOfRow(c: Catalogue, o: nat)
    requires UniqueCodes(c) && o < |c.outcomes|
    ensures PriceOf(c, c.outcomes[o].marketId, c.outcomes[o].code) == Some(c.outcomes[o].odds)
  {
    assert Keyed(c.outcomes[o].marketId, c.outcomes[o].code)(c.outcomes[o]);
    FirstExists(c.outcomes, Keyed(c.outcomes[o].marketId, c.outcomes[o].code));
  }

  lemma PriceHasRow(c: Catalogue, m: nat, code: OutcomeCode) returns (o: nat)
    requires PriceOf(c, m, code).Some?
    ensures o < |c.outcomes| && c.outcomes[o].marketId == m && c.outcomes[o].code == code
  {
    FirstExists(c.outcomes, Keyed(m, code));
    o := First(c.outcomes, Keyed(m, code)).value;
  }

  /**
   * After a sync with a usable ML line, every outcome of the market carries a current quote if and only if the line
   * quotes every code the market already had. A withdrawn outcome stays bettable at its old price.
   */
  lemma MLIsCurrentExactlyWhen(c: Catalogue, e: nat, quotes: Option<seq<ApiMarket>>, m: nat)
    requires Sane(c) && First(c.markets, MarketOfKind(e, MarketML)) == Some(m)
    requires ApplyEvent(c, e, quotes).error.None? && UsableML(quotes).Some?
    ensures Current(ApplyEvent(c, e, quotes).cat, m, MLOffer(quotes)) <==> Covered(c, m, MLOffer(quotes))
  {
    var next := ApplyEvent(c, e, quotes).cat;
    MLFollowsQuotes(c, e, quotes, m);
    Lifecycle.ApplyEventEvolves(c, e, quotes);
    hide ApplyEvent, MLOffer, UsableML, First, PriceOf, StoredOdds;
    CurrentExactlyWhenCovered(c, next, e, m, MLOffer(quotes));
  }

  lemma CurrentExactlyWhenCovered(c: Catalogue, next: Catalogue, e: nat, m: nat, quotes: seq<(OutcomeCode, real)>)
    requires UniqueCodes(c) && UniqueCodes(next) && Lifecycle.Evolves(c, next, e)
    requires forall code :: PriceOf(next, m, code) == Repriced(quotes, c, m, code)
    ensures Current(next, m, quotes) <==> Covered(c, m, quotes)
  {
    hide PriceOf, StoredOdds, QuoteFor, UniqueCodes;
    if Current(next, m, quotes) {
      forall o | 0 <= o < |c.outcomes| && c.outcomes[o].marketId == m ensures QuoteFor(quotes, c.outcomes[o].code).Some? {
        assert Lifecycle.OutcomeEvolves(c, next, e, o);
        assert IsCurrent(next.outcomes[o], quotes);
      }
    }
    if Covered(c, m, quotes) {
      forall o | 0 <= o < |next.outcomes| && next.outcomes[o].marketId == m ensures IsCurrent(next.outcomes[o], quotes) {
        var code := next.outcomes[o].code;
        PriceOfRow(next, o);
        if QuoteFor(quotes, code).None? {
          var was := PriceHasRow(c, m, code);
          assert false;
        }
      }
    }
  }

  // ---------- an attempt cut short by a lost statement ----------

  /** The first few quotes are stored and nothing else. */
  ghost predicate UpsertsCut(c: Catalogue, m: nat, quotes: seq<(OutcomeCode, real)>, next: Catalogue) {
    exists k :: 0 <= k <= |quotes| && Upserts(c, m, quotes[..k]) == Sync(next, None)
  }

  ghost predicate MLCut(c: Catalogue, m: nat, lines: seq<OddsLine>, next: Catalogue)
    requires m < |c.markets|
  {
    || next == c || next == ApplyML(c, m, lines).cat
    || (First(lines, ValidML()).Some? && UpsertsCut(c, m, MLQuotes(lines[First(lines, ValidML()).value]), next))
  }

  /** The catalogue once the main line is stored, before any price. */
  function Lined(c: Catalogue, m: nat, line: real): Try<Catalogue>
    requires m < |c.markets|
  {
    if SameLine(c.markets[m].line, line) then Ok(c) else UpdateLine(c, m, Some(line))
  }

  ghost predicate TotalsCut(c: Catalogue, m: nat, lines: seq<OddsLine>, next: Catalogue)
    requires m < |c.markets|
  {
    || next == c || next == ApplyTotals(c, m, lines).cat
    || (MainLine(lines).Some?
        && var l := lines[MainLine(lines).value];
           Lined(c, m, l.hdp.value).Ok? && UpsertsCut(Lined(c, m, l.hdp.value).value, m, TotalsQuotes(l), next))
  }

  ghost predicate SlotCut(c: Catalogue, e: nat, kind: MarketType, quotes: seq<ApiMarket>, next: Catalogue) {
    || next == c || next == SyncMarket(c, e, kind, quotes).cat
    || (First(c.markets, MarketOfKind(e, kind)).Some?
        && var m := First(c.markets, MarketOfKind(e, kind)).value;
           var api := First(quotes, OfKind(if kind == MarketML then ApiML else ApiTotals));
           api.Some? && if kind == MarketML then MLCut(c, m, quotes[api.value].lines, next) else TotalsCut(c, m, quotes[api.value].lines, next))
  }

  /** A prefix of the writes of one synchronisation: part of the ML market, or all of it and part of the TOTALS market. */
  ghost predicate EventCut(c: Catalogue, e: nat, quotes: Option<seq<ApiMarket>>, next: Catalogue) {
    var ml := SyncMarket(c, e, MarketML, Offers(quotes));
    SlotCut(c, e, MarketML, Offers(quotes), next) || (ml.error.None? && SlotCut(ml.cat, e, MarketTotals, Offers(quotes), next))
  }

  lemma {:induction false} UpsertsResumeAt(c: Catalogue, m: nat, quotes: seq<(OutcomeCode, real)>, k: nat, next: Catalogue)
    requires m < |c.markets| && k <= |quotes| && DistinctCodes(quotes) && Upserts(c, m, quotes[..k]) == Sync(next, None)
    ensures Upserts(next, m, quotes) == Upserts(c, m, quotes)
  {
    hide UpsertOutcome;
    if k == |quotes| {
      assert quotes[..k] == quotes;
      UpsertsTwice(c, m, quotes);
    } else {
      var front := quotes[..|quotes| - 1];
      assert front[..k] == quotes[..k];
      UpsertsResumeAt(c, m, front, k, next);
    }
  }

  lemma UpsertsResume(c: Catalogue, m: nat, quotes: seq<(OutcomeCode, real)>, next: Catalogue)
    requires m < |c.markets| && DistinctCodes(quotes) && UpsertsCut(c, m, quotes, next)
    ensures next.markets == c.markets && next.events == c.events && Offer(next, m, quotes) == Offer(c, m, quotes)
  {
    hide Upserts;
    var k :| 0 <= k <= |quotes| && Upserts(c, m, quotes[..k]) == Sync(next, None);
    UpsertsKeepMarkets(c, m, quotes[..k]);
    UpsertsResumeAt(c, m, quotes, k, next);
  }

  lemma MLResumes(c: Catalogue, m: nat, lines: seq<OddsLine>, next: Catalogue)
    requires m < |c.markets| && MLCut(c, m, lines, next)
    ensures OneMarketMoved(c, next, m) && ApplyML(next, m, lines) == ApplyML(c, m, lines)
  {
    FirstExists(lines, ValidML());
    ApplyMLTwice(c, m, lines);
    var best := First(lines, ValidML());
    if best.Some? && next != c && next != ApplyML(c, m, lines).cat {
      assert DistinctCodes(MLQuotes(lines[best.value]));
      hide Offer, UpsertsCut, First, MLQuotes, DistinctCodes;
      UpsertsResume(c, m, MLQuotes(lines[best.value]), next);
    }
  }

  lemma TotalsResume(c: Catalogue, m: nat, lines: seq<OddsLine>, next: Catalogue)
    requires m < |c.markets| && TotalsCut(c, m, lines, next)
    ensures OneMarketMoved(c, next, m) && ApplyTotals(next, m, lines) == ApplyTotals(c, m, lines)
  {
    var best := MainLine(lines);
    assert best.Some? ==> best.value < |lines| && ValidTotals(lines[best.value]);
    ApplyTotalsTwice(c, m, lines);
    if best.Some? && next != c && next != ApplyTotals(c, m, lines).cat {
      var l := lines[best.value];
      assert DistinctCodes(TotalsQuotes(l));
      hide Offer, UpsertsCut, TotalsQuotes, DistinctCodes, MainLine, StoredLine, SameLine, IsMainLine;
      var lined := Lined(c, m, l.hdp.value).value;
      UpsertsResume(lined, m, TotalsQuotes(l), next);
      LinedAgain(c, m, l.hdp.value, next);
      ApplyTotalsFromLined(c, m, lines);
      ApplyTotalsFromLined(next, m, lines);
    }
  }

  lemma LinedAgain(c: Catalogue, m: nat, line: real, next: Catalogue)
    requires m < |c.markets| && Lined(c, m, line).Ok? && next.markets == Lined(c, m, line).value.markets
    ensures OneMarketMoved(c, next, m) && Lined(next, m, line) == Ok(next)
  {
    hide StoredLine;
    assert next.markets[m := next.markets[m]] == next.markets;
  }

  lemma ApplyTotalsFromLined(c: Catalogue, m: nat, lines: seq<OddsLine>)
    requires m < |c.markets| && MainLine(lines).Some?
    ensures var l := lines[MainLine(lines).value];
      Lined(c, m, l.hdp.value).Ok? ==> ApplyTotals(c, m, lines) == Offer(Lined(c, m, l.hdp.value).value, m, TotalsQuotes(l))
  {
    hide Offer, StoredLine, SameLine, TotalsQuotes;
  }

  lemma SlotResumes(c: Catalogue, e: nat, kind: MarketType, quotes: seq<ApiMarket>, next: Catalogue)
    requires (kind == MarketML || kind == MarketTotals) && SlotCut(c, e, kind, quotes, next)
    ensures SyncMarket(next, e, kind, quotes) == SyncMarket(c, e, kind, quotes)
    ensures var slot := First(c.markets, MarketOfKind(e, kind));
      if slot.Some? then OneMarketMoved(c, next, slot.value) else next == c
  {
    FirstExists(c.markets, MarketOfKind(e, kind));
    FirstExists(quotes, OfKind(if kind == MarketML then ApiML else ApiTotals));
    hide ApplyML, ApplyTotals, MLCut, TotalsCut, First;
    if kind == MarketML {
      SyncMLTwice(c, e, quotes);
    } else {
      SyncTotalsTwice(c, e, quotes);
    }
    var slot := First(c.markets, MarketOfKind(e, kind));
    if slot.Some? {
      var m := slot.value;
      var api := First(quotes, OfKind(if kind == MarketML then ApiML else ApiTotals));
      if api.None? {
        assert OneMarketMoved(c, next, m);
      } else if kind == MarketML {
        ApplyMLTwice(c, m, quotes[api.value].lines);
        if next != c && next != SyncMarket(c, e, kind, quotes).cat {
          MLResumes(c, m, quotes[api.value].lines, next);
        }
      } else {
        ApplyTotalsTwice(c, m, quotes[api.value].lines);
        if next != c && next != SyncMarket(c, e, kind, quotes).cat {
          TotalsResume(c, m, quotes[api.value].lines, next);
        }
      }
      SameSlots(c, next, m, e, kind);
    }
  }

  lemma TotalsCutKeepsPrices(c: Catalogue, t: nat, lines: seq<OddsLine>, next: Catalogue, m: nat, offered: seq<(OutcomeCode, real)>)
    requires t < |c.markets| && m != t && TotalsCut(c, t, lines, next) && AllPriced(c, m, offered)
    ensures AllPriced(next, m, offered)
  {
    hide AllPriced, StoredLine, SameLine;
    TotalsKeepPrices(c, t, lines, m, offered);
    if next != c && next != ApplyTotals(c, t, lines).cat {
      var l := lines[MainLine(lines).value];
      var lined, quotes := Lined(c, t, l.hdp.value).value, TotalsQuotes(l);
      SamePricesAfterStatus(c, lined, m, offered);
      var k :| 0 <= k <= |quotes| && Upserts(lined, t, quotes[..k]) == Sync(next, None);
      UpsertsKeepOthersPriced(lined, t, quotes[..k], m, offered);
    }
  }

  lemma SlotCutKeepsPrices(c: Catalogue, e: nat, quotes: seq<ApiMarket>, next: Catalogue, m: nat, offered: seq<(OutcomeCode, real)>)
    requires SlotCut(c, e, MarketTotals, quotes, next) && AllPriced(c, m, offered)
    requires m < |c.markets| && c.markets[m].kind != MarketTotals
    ensures AllPriced(next, m, offered)
  {
    FirstExists(c.markets, MarketOfKind(e, MarketTotals));
    FirstExists(quotes, OfKind(ApiTotals));
    hide AllPriced, ApplyTotals, TotalsCut, First;
    TotalsLeaveOthers(c, e, quotes, m, offered);
    if next != c && next != SyncMarket(c, e, MarketTotals, quotes).cat {
      TotalsCutKeepsPrices(c, First(c.markets, MarketOfKind(e, MarketTotals)).value,
                           quotes[First(quotes, OfKind(ApiTotals)).value].lines, next, m, offered);
    }
  }

  /** A finished ML market stays finished while the totals market is being written. */
  lemma MLStaysFinished(c: Catalogue, e: nat, quotes: seq<ApiMarket>, next: Catalogue)
    requires SyncMarket(c, e, MarketML, quotes) == Sync(c, None) && SlotCut(c, e, MarketTotals, quotes, next)
    ensures SyncMarket(next, e, MarketML, quotes) == Sync(next, None)
  {
    FirstExists(c.markets, MarketOfKind(e, MarketML));
    SlotResumes(c, e, MarketTotals, quotes, next);
    var slot := First(c.markets, MarketOfKind(e, MarketML));
    var t := First(c.markets, MarketOfKind(e, MarketTotals));
    if slot.Some? {
      SlotsDiffer(c, e, slot.value);
      if t.Some? {
        SameSlots(c, next, t.value, e, MarketML);
      }
      var api := First(quotes, OfKind(ApiML));
      if api.Some? && First(quotes[api.value].lines, ValidML()).Some? {
        FirstExists(quotes[api.value].lines, ValidML());
        FinishedOfferStays(c, e, quotes, next, slot.value, quotes[api.value].lines[First(quotes[api.value].lines, ValidML()).value]);
      }
    } else if t.Some? {
      SameSlots(c, next, t.value, e, MarketML);
    }
    hide SlotCut, Offer, First, OneMarketMoved, MLQuotes;
  }

  lemma FinishedOfferStays(c: Catalogue, e: nat, quotes: seq<ApiMarket>, next: Catalogue, m: nat, l: OddsLine)
    requires SlotCut(c, e, MarketTotals, quotes, next) && m < |c.markets| && c.markets[m].kind == MarketML
    requires m < |next.markets| && next.markets[m] == c.markets[m]
    requires ValidML()(l) && Offer(c, m, MLQuotes(l)) == Sync(c, None)
    ensures Offer(next, m, MLQuotes(l)) == Sync(next, None)
  {
    assert DistinctCodes(MLQuotes(l));
    hide SlotCut, Offer, MLQuotes, AllPriced, DistinctCodes;
    OfferTwice(c, m, MLQuotes(l));
    SlotCutKeepsPrices(c, e, quotes, next, m, MLQuotes(l));
    OfferAgain(next, m, MLQuotes(l));
  }

  /** However far an interrupted attempt got, running it again ends as if it had never been interrupted. */
  lemma EventResumes(c: Catalogue, e: nat, quotes: Option<seq<ApiMarket>>, next: Catalogue)
    requires EventCut(c, e, quotes, next)
    ensures ApplyEvent(next, e, quotes) == ApplyEvent(c, e, quotes)
  {
    hide SyncMarket, SlotCut;
    var offered := Offers(quotes);
    var ml := SyncMarket(c, e, MarketML, offered);
    if SlotCut(c, e, MarketML, offered, next) {
      SlotResumes(c, e, MarketML, offered, next);
    } else {
      SyncMLTwice(c, e, offered);
      MLStaysFinished(ml.cat, e, offered, next);
      SlotResumes(ml.cat, e, MarketTotals, offered, next);
    }
  }

  // ---------- a withdrawn outcome ----------

  lemma {:induction false} UpsertsSucceed(c: Catalogue, m: nat, quotes: seq<(OutcomeCode, real)>)
    requires m < |c.markets| && forall i :: 0 <= i < |quotes| ==> StoredOdds(quotes[i].1).Some?
    ensures Upserts(c, m, quotes).error.None?
  {
    hide StoredOdds;
    if |quotes| > 0 {
      UpsertsSucceed(c, m, quotes[..|quotes| - 1]);
      UpsertsKeepMarkets(c, m, quotes[..|quotes| - 1]);
    }
  }

  /** One bookmaker line, with prices the schema stores. */
  predicate Storable(l: OddsLine) {
    ValidML()(l) && forall i :: 0 <= i < |MLQuotes(l)| ==> StoredOdds(MLQuotes(l)[i].1).Some?
  }

  lemma OneLineSucceeds(c: Catalogue, e: nat, l: OddsLine, m: nat)
    requires First(c.markets, MarketOfKind(e, MarketML)) == Some(m) && Storable(l)
    ensures var quotes := Some([ApiMarket(ApiML, [l])]);
      ApplyEvent(c, e, quotes).error.None? && UsableML(quotes) == Some(l) && MLOffer(quotes) == MLQuotes(l)
  {
    FirstExists(c.markets, MarketOfKind(e, MarketML));
    var offers := [ApiMarket(ApiML, [l])];
    assert First(offers, OfKind(ApiML)) == Some(0) && First(offers, OfKind(ApiTotals)) == None;
    assert First([l], ValidML()) == Some(0);
    UpsertsSucceed(c, m, MLQuotes(l));
    hide Upserts, First, ValidML, MLQuotes;
  }

  const WITH_DRAW := OddsLine(None, Some(2.0), Some(3.0), Some(2.0), None, None)
  const WITHOUT_DRAW := OddsLine(None, Some(2.0), None, Some(2.0), None, None)

  lemma LinesAreStorable()
    ensures Storable(WITH_DRAW) && Storable(WITHOUT_DRAW) && StoredOdds(3.0) == Some(3000)
    ensures QuoteFor(MLQuotes(WITH_DRAW), OutcomeDraw) == Some(3.0) && QuoteFor(MLQuotes(WITHOUT_DRAW), OutcomeDraw) == None
  {
    assert StoredOdds(2.0) == Some(2000) && StoredOdds(3.0) == Some(3000);
    hide StoredOdds;
    var with, without := MLQuotes(WITH_DRAW), MLQuotes(WITHOUT_DRAW);
    assert with == [(OutcomeHome, 2.0), (OutcomeDraw, 3.0), (OutcomeAway, 2.0)];
    assert without == [(OutcomeHome, 2.0), (OutcomeAway, 2.0)];
    assert with[..2] == [(OutcomeHome, 2.0), (OutcomeDraw, 3.0)] && |without[..1][..0]| == 0;
  }

  /** A bookmaker withdraws the draw: after the next complete sync it is still on offer, open, at its old price. */
  lemma WithdrawnDrawStays(c: Catalogue)
    requires First(c.markets, MarketOfKind(0, MarketML)) == Some(0)
    ensures var first := ApplyEvent(c, 0, Some([ApiMarket(ApiML, [WITH_DRAW])]));
            var second := ApplyEvent(first.cat, 0, Some([ApiMarket(ApiML, [WITHOUT_DRAW])]));
      && first.error.None? && second.error.None?
      && 0 < |second.cat.markets| && second.cat.markets[0].status == MarketOpen
      && PriceOf(second.cat, 0, OutcomeDraw) == Some(3000)
  {
    LinesAreStorable();
    hide ApplyEvent, Storable, StoredOdds, First, PriceOf, QuoteFor, UsableML, MLOffer, MLQuotes;
    OneLineSucceeds(c, 0, WITH_DRAW, 0);
    var first := ApplyEvent(c, 0, Some([ApiMarket(ApiML, [WITH_DRAW])])).cat;
    MLFollowsQuotes(c, 0, Some([ApiMarket(ApiML, [WITH_DRAW])]), 0);
    SyncKeepsSlots(c, 0, Some([ApiMarket(ApiML, [WITH_DRAW])]));
    OneLineSucceeds(first, 0, WITHOUT_DRAW, 0);
    MLFollowsQuotes(first, 0, Some([ApiMarket(ApiML, [WITHOUT_DRAW])]), 0);
  }

  /** Synchronising quotes moves no market into or out of the ML slot. */
  lemma SyncKeepsSlots(c: Catalogue, e: nat, quotes: Option<seq<ApiMarket>>)
    ensures First(ApplyEvent(c, e, quotes).cat.markets, MarketOfKind(e, MarketML)) == First(c.markets, MarketOfKind(e, MarketML))
  {
    hide SyncMarket, First;
    var ml := SyncMarket(c, e, MarketML, Offers(quotes));
    assert SlotCut(c, e, MarketML, Offers(quotes), ml.cat);
    CutKeepsSlots(c, e, MarketML, Offers(quotes), ml.cat);
    if ml.error.None? {
      assert SlotCut(ml.cat, e, MarketTotals, Offers(quotes), SyncMarket(ml.cat, e, MarketTotals, Offers(quotes)).cat);
      CutKeepsSlots(ml.cat, e, MarketTotals, Offers(quotes), SyncMarket(ml.cat, e, MarketTotals, Offers(quotes)).cat);
    }
  }

  lemma CutKeepsSlots(c: Catalogue, e: nat, kind: MarketType, quotes: seq<ApiMarket>, next: Catalogue)
    requires (kind == MarketML || kind == MarketTotals) && SlotCut(c, e, kind, quotes, next)
    ensures First(next.markets, MarketOfKind(e, MarketML)) == First(c.markets, MarketOfKind(e, MarketML))
  {
    hide SlotCut, SyncMarket, First;
    SlotResumes(c, e, kind, quotes, next);
    var slot := First(c.markets, MarketOfKind(e, kind));
    if slot.Some? {
      SameSlots(c, next, slot.value, e, MarketML);
    }
  }
}
