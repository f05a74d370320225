/** How catalogue operations may change events, markets and outcomes. */
module Lifecycle {
  import opened Sums
  import opened Domain
  import opened Plans
  import opened CatalogueOps
  import opened OddsSync
  import opened Settlement

  // ---------- the coupled statuses ----------

  /** For admin events: upcoming = open, live = suspended, cancelled = void, settled = settled or void. */
  predicate MarketFits(ev: Event, mk: Market) {
    ev.source != SourceOddsAPI ==>
      match ev.status
      case EventUpcoming => mk.status == MarketOpen
      case EventLive => mk.status == MarketSuspended
      case EventCancelled => mk.status == MarketVoid
      case EventSettled => mk.status == MarketSettled || mk.status == MarketVoid
  }

  /** For admin events: an outcome has a result exactly when the event is terminal, and void in a void market. */
  predicate OutcomeFits(ev: Event, mk: Market, oc: Outcome) {
    ev.source != SourceOddsAPI ==>
      && (oc.result.Some? <==> Terminal(ev.status))
      && (mk.status == MarketVoid ==> oc.result == Some(ResultVoid))
  }

  predicate MarketInStep(c: Catalogue, m: nat)
    requires m < |c.markets|
  {
    c.markets[m].eventId < |c.events| && MarketFits(c.events[c.markets[m].eventId], c.markets[m])
  }

  predicate OutcomeInStep(c: Catalogue, o: nat)
    requires o < |c.outcomes|
  {
    var m := c.outcomes[o].marketId;
    && m < |c.markets| && c.markets[m].eventId < |c.events|
    && OutcomeFits(c.events[c.markets[m].eventId], c.markets[m], c.outcomes[o])
  }

  ghost predicate InStep(c: Catalogue) {
    && (forall m :: 0 <= m < |c.markets| ==> MarketInStep(c, m))
    && (forall o :: 0 <= o < |c.outcomes| ==> OutcomeInStep(c, o))
  }

  // ---------- what an operation on event e may touch ----------

  /** Only event e may change status; only its markets may change status or be added; only its outcomes may be added. */
  ghost predicate Evolves(c: Catalogue, next: Catalogue, e: nat) {
    && |c.events| <= |next.events| && |c.markets| <= |next.markets| && |c.outcomes| <= |next.outcomes|
    && (forall i :: 0 <= i < |c.events| ==> SameEvent(c, next, e, i))
    && (forall m :: 0 <= m < |next.markets| ==> MarketEvolves(c, next, e, m))
    && (forall o :: 0 <= o < |next.outcomes| ==> OutcomeEvolves(c, next, e, o))
  }

  predicate SameEvent(c: Catalogue, next: Catalogue, e: nat, i: nat)
    requires i < |c.events| <= |next.events|
  {
    next.events[i].source == c.events[i].source && (i != e ==> next.events[i].status == c.events[i].status)
  }

  predicate MarketEvolves(c: Catalogue, next: Catalogue, e: nat, m: nat)
    requires |c.markets| <= |next.markets| && m < |next.markets|
  {
    if m < |c.markets| then
      && next.markets[m].eventId == c.markets[m].eventId && next.markets[m].kind == c.markets[m].kind
      && (c.markets[m].eventId != e ==> next.markets[m].status == c.markets[m].status)
    else next.markets[m].eventId == e
  }

  predicate OutcomeEvolves(c: Catalogue, next: Catalogue, e: nat, o: nat)
    requires |c.outcomes| <= |next.outcomes| && o < |next.outcomes|
  {
    if o < |c.outcomes| then
      && next.outcomes[o].marketId == c.outcomes[o].marketId
      && next.outcomes[o].code == c.outcomes[o].code && next.outcomes[o].result == c.outcomes[o].result
    else
      && next.outcomes[o].marketId < |next.markets| && next.markets[next.outcomes[o].marketId].eventId == e
      && next.outcomes[o].result == None
  }

  /** Additionally no status moves at all and new markets are open. */
  ghost predicate Builds(c: Catalogue, next: Catalogue, e: nat) {
    && Evolves(c, next, e)
    && (forall i :: 0 <= i < |c.events| ==> next.events[i].status == c.events[i].status)
    && (forall m :: 0 <= m < |next.markets| ==>
          next.markets[m].status == if m < |c.markets| then c.markets[m].status else MarketOpen)
  }

  lemma EvolvesTransitive(a: Catalogue, b: Catalogue, c: Catalogue, e: nat)
    requires Evolves(a, b, e) && Evolves(b, c, e)
    ensures Evolves(a, c, e)
  {
    forall i | 0 <= i < |a.events| ensures SameEvent(a, c, e, i) {
      assert SameEvent(a, b, e, i) && SameEvent(b, c, e, i);
    }
    forall m | 0 <= m < |c.markets| ensures MarketEvolves(a, c, e, m) {
      assert MarketEvolves(b, c, e, m);
      assert m < |b.markets| ==> MarketEvolves(a, b, e, m);
    }
    forall o | 0 <= o < |c.outcomes| ensures OutcomeEvolves(a, c, e, o) {
      assert OutcomeEvolves(b, c, e, o);
      if o < |b.outcomes| {
        assert OutcomeEvolves(a, b, e, o);
        if o >= |a.outcomes| {
          assert MarketEvolves(b, c, e, b.outcomes[o].marketId);
        }
      }
    }
  }

  lemma BuildsTransitive(a: Catalogue, b: Catalogue, c: Catalogue, e: nat)
    requires Builds(a, b, e) && Builds(b, c, e)
    ensures Builds(a, c, e)
  {
    EvolvesTransitive(a, b, c, e);
  }

  // ---------- the operations ----------

  lemma NoChangeBuilds(c: Catalogue, e: nat)
    ensures Builds(c, c, e)
  {
  }

  lemma UpsertOutcomeBuilds(c: Catalogue, m: nat, code: OutcomeCode, odds: real)
    requires UpsertOutcome(c, m, code, odds).Ok? && m < |c.markets|
    ensures Builds(c, UpsertOutcome(c, m, code, odds).value, c.markets[m].eventId)
  {
    hide StoredOdds, Where;
  }

  lemma {:induction false} AddOutcomesBuilds(c: Catalogue, m: nat, outcomes: seq<OutcomeInput>)
    requires Sane(c) && Priceable(c, m) && AddOutcomes(c, m, outcomes).Ok?
    ensures var next := AddOutcomes(c, m, outcomes).value;
      Sane(next) && Builds(c, next, c.markets[m].eventId) && next.markets == c.markets && next.events == c.events
  {
    hide Sane, StoredOdds, Builds, UpsertOutcome;
    if |outcomes| == 0 {
      NoChangeBuilds(c, c.markets[m].eventId);
    } else {
      var last := outcomes[|outcomes| - 1];
      AddOutcomesBuilds(c, m, outcomes[..|outcomes| - 1]);
      var mid := AddOutcomes(c, m, outcomes[..|outcomes| - 1]).value;
      UpsertOutcomeKeepsSane(mid, m, last.code, last.odds);
      UpsertOutcomeBuilds(mid, m, last.code, last.odds);
      BuildsTransitive(c, mid, AddOutcomes(c, m, outcomes).value, c.markets[m].eventId);
    }
  }

  lemma InsertMarketBuilds(c: Catalogue, e: nat, kind: MarketType, line: Option<real>)
    requires InsertMarket(c, e, kind, line).Ok?
    ensures Builds(c, InsertMarket(c, e, kind, line).value, e)
  {
    hide StoredLine;
  }

  lemma AddMarketBuilds(c: Catalogue, e: nat, mk: MarketInput)
    requires Sane(c) && Lined(mk) && AddMarket(c, e, mk).Ok?
    ensures Sane(AddMarket(c, e, mk).value) && Builds(c, AddMarket(c, e, mk).value, e)
  {
    hide Sane, StoredLine, Builds, AddOutcomes;
    var mid := InsertMarket(c, e, mk.kind, mk.line).value;
    InsertMarketKeepsSane(c, e, mk.kind, mk.line);
    InsertMarketBuilds(c, e, mk.kind, mk.line);
    AddOutcomesBuilds(mid, |c.markets|, mk.outcomes);
    BuildsTransitive(c, mid, AddMarket(c, e, mk).value, e);
  }

  lemma {:induction false} AddMarketsBuilds(c: Catalogue, e: nat, markets: seq<MarketInput>)
    requires Sane(c) && (forall i :: 0 <= i < |markets| ==> Lined(markets[i])) && AddMarkets(c, e, markets).Ok?
    ensures Sane(AddMarkets(c, e, markets).value) && Builds(c, AddMarkets(c, e, markets).value, e)
  {
    hide Sane, Builds, AddMarket;
    if |markets| == 0 {
      NoChangeBuilds(c, e);
    } else {
      AddMarketsBuilds(c, e, markets[..|markets| - 1]);
      var mid := AddMarkets(c, e, markets[..|markets| - 1]).value;
      AddMarketBuilds(mid, e, markets[|markets| - 1]);
      BuildsTransitive(c, mid, AddMarkets(c, e, markets).value, e);
    }
  }

  /** A newly inserted event with no markets yet. */
  lemma InsertEventBuilds(c: Catalogue, next: Catalogue)
    requires |c.events| < |next.events| && next.events[..|c.events|] == c.events
    requires next.markets == c.markets && next.outcomes == c.outcomes && Sane(c)
    ensures Sane(next) && Builds(c, next, |c.events|)
  {
    MoreEventsKeepSane(c, next);
    forall i | 0 <= i < |c.events| ensures next.events[i] == c.events[i] {
      assert next.events[..|c.events|][i] == next.events[i];
    }
  }

  lemma CreateMatchBuilds(c: Catalogue, leagueFound: bool, input: MatchInput)
    requires Sane(c) && CreateMatch(c, leagueFound, input).Ok?
    ensures var next := CreateMatch(c, leagueFound, input).value;
      Sane(next) && Builds(c, next, |c.events|) && CreatedAsUpcoming(c, next)
  {
    hide Sane, Builds, AddMarkets;
    var mid := InsertEvent(c, SourceManual, None, input.startsAt.value, EventUpcoming, NoScores);
    InsertEventBuilds(c, mid);
    AddMarketsBuilds(mid, |c.events|, input.markets);
    AddMarketsKeepEvents(mid, |c.events|, input.markets);
    BuildsTransitive(c, mid, CreateMatch(c, leagueFound, input).value, |c.events|);
  }

  lemma CreateCustomBuilds(c: Catalogue, input: CustomInput)
    requires Sane(c) && CreateCustomEvent(c, input).Ok?
    ensures var next := CreateCustomEvent(c, input).value;
      Sane(next) && Builds(c, next, |c.events|) && CreatedAsUpcoming(c, next)
  {
    hide Sane, Builds, AddMarket;
    var mid := InsertEvent(c, SourceCustom, None, input.startsAt.value, EventUpcoming, NoScores);
    var mk := CustomMarket(input);
    InsertEventBuilds(c, mid);
    AddMarketBuilds(mid, |c.events|, mk);
    AddMarketKeepsEvents(mid, |c.events|, mk);
    BuildsTransitive(c, mid, CreateCustomEvent(c, input).value, |c.events|);
  }

  ghost predicate CreatedAsUpcoming(c: Catalogue, next: Catalogue) {
    |next.events| == |c.events| + 1 && next.events[|c.events|].status == EventUpcoming
  }

  lemma {:induction false} AddOutcomesKeepEvents(c: Catalogue, m: nat, outcomes: seq<OutcomeInput>)
    requires AddOutcomes(c, m, outcomes).Ok?
    ensures AddOutcomes(c, m, outcomes).value.events == c.events
  {
    hide StoredOdds;
    if |outcomes| > 0 {
      AddOutcomesKeepEvents(c, m, outcomes[..|outcomes| - 1]);
    }
  }

  lemma AddMarketKeepsEvents(c: Catalogue, e: nat, mk: MarketInput)
    requires AddMarket(c, e, mk).Ok?
    ensures AddMarket(c, e, mk).value.events == c.events
  {
    hide StoredLine, AddOutcomes;
    AddOutcomesKeepEvents(InsertMarket(c, e, mk.kind, mk.line).value, |c.markets|, mk.outcomes);
  }

  lemma {:induction false} AddMarketsKeepEvents(c: Catalogue, e: nat, markets: seq<MarketInput>)
    requires AddMarkets(c, e, markets).Ok?
    ensures AddMarkets(c, e, markets).value.events == c.events
  {
    hide AddMarket;
    if |markets| > 0 {
      AddMarketsKeepEvents(c, e, markets[..|markets| - 1]);
      AddMarketKeepsEvents(AddMarkets(c, e, markets[..|markets| - 1]).value, e, markets[|markets| - 1]);
    }
  }

  lemma {:induction false} EditOutcomesBuilds(c: Catalogue, e: nat, edits: seq<OutcomeEdit>)
    requires Sane(c) && EditOutcomes(c, edits).Ok?
    ensures var next := EditOutcomes(c, edits).value; Sane(next) && Builds(c, next, e)
  {
    hide Sane, StoredOdds;
    if |edits| == 0 {
      NoChangeBuilds(c, e);
    } else {
      var last := edits[|edits| - 1];
      EditOutcomesBuilds(c, e, edits[..|edits| - 1]);
      var mid := EditOutcomes(c, edits[..|edits| - 1]).value;
      UpdateOddsKeepsSane(mid, last.id, last.odds);
      BuildsTransitive(c, mid, EditOutcomes(c, edits).value, e);
    }
  }

  lemma EditDetailsBuilds(c: Catalogue, source: Source, e: nat, startsAt: Option<int>, edits: seq<OutcomeEdit>)
    requires Sane(c) && EditDetails(c, source, e, startsAt, edits).Ok?
    ensures var next := EditDetails(c, source, e, startsAt, edits).value; Sane(next) && Builds(c, next, e)
  {
    hide Sane, EditOutcomes;
    var moved := if startsAt.Some? then c.events[e].(startsAt := startsAt.value) else c.events[e];
    var mid := c.(events := c.events[e := moved]);
    SameKeysKeepSane(c, mid);
    EditOutcomesBuilds(mid, e, edits);
    BuildsTransitive(c, mid, EditDetails(c, source, e, startsAt, edits).value, e);
  }

  // ---------- the feed ----------

  lemma UpsertEventEvolves(c: Catalogue, api: ApiEvent)
    requires Sane(c)
    ensures var (next, e) := UpsertEvent(c, api);
      && Sane(next) && Evolves(c, next, e)
      && e < |next.events| <= |c.events| + 1 && next.events[e].source == SourceOddsAPI && next.events[e].status == api.status
      && (e < |c.events| || e == |c.events|)
  {
    hide Sane, Evolves, Where;
    var (next, e) := UpsertEvent(c, api);
    if Where(c.events, Feed(api.externalId)) == [] {
      InsertEventBuilds(c, next);
      assert Builds(c, next, e);
    } else {
      assert Feed(api.externalId)(c.events[e]);
      EventRowEvolves(c, next, e);
    }
  }

  lemma EventRowEvolves(c: Catalogue, next: Catalogue, e: nat)
    requires Sane(c) && e < |c.events| == |next.events| && next.markets == c.markets && next.outcomes == c.outcomes
    requires next.events == c.events[e := next.events[e]] && next.events[e].source == c.events[e].source
    ensures Sane(next) && Evolves(c, next, e)
  {
    MoreEventsKeepSane(c, next);
    hide Sane;
  }

  lemma EnsureMarketEvolves(c: Catalogue, e: nat, kind: MarketType)
    requires Sane(c) && e < |c.events|
    ensures var next := EnsureMarket(c, e, kind); Sane(next) && Evolves(c, next, e) && next.events == c.events
  {
    hide Sane;
    if HasKind(c, e, kind) {
      NoChangeBuilds(c, e);
    } else {
      InsertMarketKeepsSane(c, e, kind, None);
      InsertMarketBuilds(c, e, kind, None);
    }
  }

  lemma SyncEventEvolves(c: Catalogue, api: ApiEvent)
    requires Sane(c)
    ensures var next := SyncEvent(c, api);
            var e := UpsertEvent(c, api).1;
      && Sane(next) && Evolves(c, next, e)
      && e < |next.events| && next.events[e].source == SourceOddsAPI && next.events[e].status == api.status
      && next.events == UpsertEvent(c, api).0.events
  {
    hide Sane, Evolves, EnsureMarket;
    var (upserted, e) := UpsertEvent(c, api);
    UpsertEventEvolves(c, api);
    EnsureMarketEvolves(upserted, e, MarketML);
    var ml := EnsureMarket(upserted, e, MarketML);
    EnsureMarketEvolves(ml, e, MarketTotals);
    EvolvesTransitive(c, upserted, ml, e);
    EvolvesTransitive(c, ml, SyncEvent(c, api), e);
  }

  lemma {:induction false} UpsertsEvolve(c: Catalogue, m: nat, quotes: seq<(OutcomeCode, real)>)
    requires Sane(c) && Priceable(c, m)
    ensures var next := Upserts(c, m, quotes).cat; Sane(next) && Evolves(c, next, c.markets[m].eventId)
  {
    hide Sane, StoredOdds, Evolves, UpsertOutcome;
    if |quotes| == 0 {
      NoChangeBuilds(c, c.markets[m].eventId);
      assert Builds(c, c, c.markets[m].eventId);
    } else {
      var last := quotes[|quotes| - 1];
      UpsertsEvolve(c, m, quotes[..|quotes| - 1]);
      UpsertsKeepMarkets(c, m, quotes[..|quotes| - 1]);
      var mid := Upserts(c, m, quotes[..|quotes| - 1]).cat;
      if UpsertOutcome(mid, m, last.0, last.1).Ok? {
        UpsertOutcomeKeepsSane(mid, m, last.0, last.1);
        UpsertOutcomeBuilds(mid, m, last.0, last.1);
        EvolvesTransitive(c, mid, UpsertOutcome(mid, m, last.0, last.1).value, c.markets[m].eventId);
      }
    }
  }

  /** Changing status or setting a line on one market. */
  lemma MarketWriteEvolves(c: Catalogue, next: Catalogue, m: nat)
    requires Sane(c) && OneMarketMoved(c, next, m) && next.events == c.events && next.outcomes == c.outcomes
    requires c.markets[m].line.Some? ==> next.markets[m].line.Some?
    ensures Sane(next) && Evolves(c, next, c.markets[m].eventId)
  {
    SameKeysKeepSane(c, next);
    hide Sane;
  }

  lemma OfferEvolves(c: Catalogue, m: nat, quotes: seq<(OutcomeCode, real)>)
    requires Sane(c) && Priceable(c, m)
    ensures var next := Offer(c, m, quotes).cat;
      Sane(next) && Evolves(c, next, c.markets[m].eventId) && next.events == c.events
  {
    hide Sane, Evolves, Upserts;
    UpsertsEvolve(c, m, quotes);
    UpsertsKeepMarkets(c, m, quotes);
    var written := Upserts(c, m, quotes);
    if written.error.None? {
      MarketWriteEvolves(written.cat, Offer(c, m, quotes).cat, m);
      EvolvesTransitive(c, written.cat, Offer(c, m, quotes).cat, c.markets[m].eventId);
    }
  }

  lemma ApplyTotalsEvolves(c: Catalogue, m: nat, lines: seq<OddsLine>)
    requires Sane(c) && m < |c.markets|
    ensures var next := ApplyTotals(c, m, lines).cat;
      Sane(next) && Evolves(c, next, c.markets[m].eventId) && next.events == c.events
  {
    hide Sane, Evolves, Offer, StoredLine, MainLine;
    var best := MainLine(lines);
    if best.None? {
      MarketWriteEvolves(c, ApplyTotals(c, m, lines).cat, m);
    } else {
      var line := lines[best.value].hdp.value;
      if SameLine(c.markets[m].line, line) {
        OfferEvolves(c, m, TotalsQuotes(lines[best.value]));
      } else if UpdateLine(c, m, Some(line)).Ok? {
        var mid := UpdateLine(c, m, Some(line)).value;
        MarketWriteEvolves(c, mid, m);
        OfferEvolves(mid, m, TotalsQuotes(lines[best.value]));
        EvolvesTransitive(c, mid, ApplyTotals(c, m, lines).cat, c.markets[m].eventId);
      } else {
        NoChangeBuilds(c, c.markets[m].eventId);
        assert Builds(c, c, c.markets[m].eventId);
      }
    }
  }

  lemma SyncMarketEvolves(c: Catalogue, e: nat, kind: MarketType, quotes: seq<ApiMarket>)
    requires Sane(c) && kind != MarketCustom
    ensures var next := SyncMarket(c, e, kind, quotes).cat; Sane(next) && Evolves(c, next, e) && next.events == c.events
  {
    hide Sane, Evolves, Offer, ApplyTotals;
    var slot := First(c.markets, MarketOfKind(e, kind));
    if slot.None? {
      NoChangeBuilds(c, e);
      assert Builds(c, c, e);
    } else {
      var m := slot.value;
      var api := First(quotes, OfKind(if kind == MarketML then ApiML else ApiTotals));
      if api.None? || (kind == MarketML && First(quotes[api.value].lines, ValidML()).None?) {
        MarketWriteEvolves(c, SyncMarket(c, e, kind, quotes).cat, m);
      } else if kind == MarketML {
        OfferEvolves(c, m, MLQuotes(quotes[api.value].lines[First(quotes[api.value].lines, ValidML()).value]));
      } else {
        ApplyTotalsEvolves(c, m, quotes[api.value].lines);
      }
    }
  }

  lemma ApplyEventEvolves(c: Catalogue, e: nat, quotes: Option<seq<ApiMarket>>)
    requires Sane(c)
    ensures var next := ApplyEvent(c, e, quotes).cat; Sane(next) && Evolves(c, next, e) && next.events == c.events
  {
    hide Sane, Evolves, SyncMarket;
    var offered := if quotes.Some? then quotes.value else [];
    SyncMarketEvolves(c, e, MarketML, offered);
    var ml := SyncMarket(c, e, MarketML, offered);
    if ml.error.None? {
      SyncMarketEvolves(ml.cat, e, MarketTotals, offered);
      EvolvesTransitive(c, ml.cat, ApplyEvent(c, e, quotes).cat, e);
    }
  }

  // ---------- the lifecycle is kept ----------

  /** Building a new upcoming event, or repricing, keeps every admin event in step. */
  lemma BuildsKeepsInStep(c: Catalogue, next: Catalogue, e: nat)
    requires InStep(c) && Sane(next) && Builds(c, next, e)
    requires |next.markets| > |c.markets| || |next.outcomes| > |c.outcomes| ==>
      e < |next.events| && next.events[e].status == EventUpcoming
    ensures InStep(next)
  {
    forall m | 0 <= m < |next.markets| ensures MarketInStep(next, m) {
      assert SaneMarket(next, m) && MarketEvolves(c, next, e, m);
      if m < |c.markets| {
        assert MarketInStep(c, m) && SameEvent(c, next, e, c.markets[m].eventId);
      }
    }
    forall o | 0 <= o < |next.outcomes| ensures OutcomeInStep(next, o) {
      assert SaneOutcome(next, o) && OutcomeEvolves(c, next, e, o);
      var m := next.outcomes[o].marketId;
      assert SaneMarket(next, m) && MarketInStep(next, m);
      if o < |c.outcomes| {
        assert OutcomeInStep(c, o) && MarketEvolves(c, next, e, m) && SameEvent(c, next, e, c.markets[m].eventId);
      }
    }
  }

  /** The feed only touches feed events, whose statuses are not coupled. */
  lemma EvolvesKeepsInStep(c: Catalogue, next: Catalogue, e: nat)
    requires InStep(c) && Sane(next) && Evolves(c, next, e)
    requires e < |next.events| && next.events[e].source == SourceOddsAPI
    ensures InStep(next)
  {
    forall m | 0 <= m < |next.markets| ensures MarketInStep(next, m) {
      assert SaneMarket(next, m) && MarketEvolves(c, next, e, m);
      if m < |c.markets| {
        assert MarketInStep(c, m) && SameEvent(c, next, e, c.markets[m].eventId);
      }
    }
    forall o | 0 <= o < |next.outcomes| ensures OutcomeInStep(next, o) {
      assert SaneOutcome(next, o) && OutcomeEvolves(c, next, e, o);
      var m := next.outcomes[o].marketId;
      assert SaneMarket(next, m);
      if o < |c.outcomes| {
        assert OutcomeInStep(c, o) && MarketEvolves(c, next, e, m) && SameEvent(c, next, e, c.markets[m].eventId);
      }
    }
  }

  lemma SetMatchStatusKeepsInStep(c: Catalogue, e: nat, status: EventStatus)
    requires Sane(c) && InStep(c) && SetMatchStatus(c, e, status).Ok?
    ensures Sane(SetMatchStatus(c, e, status).value) && InStep(SetMatchStatus(c, e, status).value)
  {
    var next := SetMatchStatus(c, e, status).value;
    SameKeysKeepSane(c, next);
    hide Sane;
    forall m | 0 <= m < |next.markets| ensures MarketInStep(next, m) {
      assert MarketInStep(c, m);
    }
    forall o | 0 <= o < |next.outcomes| ensures OutcomeInStep(next, o) {
      assert OutcomeInStep(c, o) && MarketInStep(c, c.outcomes[o].marketId);
    }
  }

  /** A decision matches the final status it is recorded with. */
  predicate Matching(final: EventStatus, d: Decision) {
    if d == Cancellation then final == EventCancelled else final == EventSettled
  }

  lemma ClosedKeepsInStep(c: Catalogue, e: nat, final: EventStatus, d: Decision, scores: Scores)
    requires Sane(c) && InStep(c) && e < |c.events| && Matching(final, d)
    ensures Sane(Closed(c, e, final, d, scores)) && InStep(Closed(c, e, final, d, scores))
  {
    var next := Closed(c, e, final, d, scores);
    SameKeysKeepSane(c, next);
    hide Sane;
    forall m | 0 <= m < |next.markets| ensures MarketInStep(next, m) {
      assert MarketInStep(c, m);
    }
    forall o | 0 <= o < |next.outcomes| ensures OutcomeInStep(next, o) {
      assert OutcomeInStep(c, o) && MarketInStep(c, c.outcomes[o].marketId);
      ClosedOutcome(c, e, d, o);
    }
  }

  /** A market the decision voids has only void outcomes. */
  lemma ClosedOutcome(c: Catalogue, e: nat, d: Decision, o: nat)
    requires o < |c.outcomes| && c.outcomes[o].marketId < |c.markets|
    ensures MarketVerdict(c, d, c.outcomes[o].marketId) == MarketVoid ==> OutcomeVerdict(c, d, o) == ResultVoid
  {
  }
}
