/** Which of a bookmaker's quotes an event is offered at, line by line and price by price. */
module QuoteMeaning {
  import opened Sums
  import opened Domain
  import opened CatalogueOps
  import opened OddsSync
  import opened QuoteEffects
  import Lifecycle
  import Rounding

  // ---------- usable lines ----------

  /** Both sides of a match are quoted above 1.0. */
  predicate HomeAndAway(l: OddsLine) {
    l.home.Some? && l.home.value > 1.0 && l.away.Some? && l.away.value > 1.0
  }

  /** A total with both sides quoted above 1.0. */
  predicate OverAndUnder(l: OddsLine) {
    l.hdp.Some? && l.over.Some? && l.over.value > 1.0 && l.under.Some? && l.under.value > 1.0
  }

  /** The k-th line is the first that prices both sides of the match. */
  predicate FirstMatchLine(lines: seq<OddsLine>, k: nat) {
    k < |lines| && HomeAndAway(lines[k]) && forall j :: 0 <= j < k ==> !HomeAndAway(lines[j])
  }

  /** a's two prices are together no farther from 1.9 than b's; strictly nearer if asked. */
  predicate NoFarther(a: OddsLine, b: OddsLine, strictly: bool)
    requires OverAndUnder(a) && OverAndUnder(b)
  {
    var x := (if a.over.value >= 1.9 then a.over.value - 1.9 else 1.9 - a.over.value)
             + (if a.under.value >= 1.9 then a.under.value - 1.9 else 1.9 - a.under.value);
    var y := (if b.over.value >= 1.9 then b.over.value - 1.9 else 1.9 - b.over.value)
             + (if b.under.value >= 1.9 then b.under.value - 1.9 else 1.9 - b.under.value);
    x < y || (x == y && !strictly)
  }

  /** The k-th line is the total priced closest to 1.90/1.90, the earliest of them. */
  predicate ClosestTotal(lines: seq<OddsLine>, k: nat) {
    && k < |lines| && OverAndUnder(lines[k])
    && (forall j :: 0 <= j < |lines| && OverAndUnder(lines[j]) ==> NoFarther(lines[k], lines[j], j < k))
  }

  lemma UsableIs(l: OddsLine)
    ensures ValidML()(l) <==> HomeAndAway(l)
    ensures ValidTotals(l) <==> OverAndUnder(l)
  {
  }

  lemma CheaperIsCloser(a: OddsLine, b: OddsLine)
    requires OverAndUnder(a) && OverAndUnder(b)
    ensures Cost(a) <= Cost(b) <==> NoFarther(a, b, false)
    ensures Cost(a) < Cost(b) <==> NoFarther(a, b, true)
  {
  }

  /** The main line is the closest total, and is missing exactly when no total is usable. */
  lemma MainLineIsClosest(lines: seq<OddsLine>)
    ensures MainLine(lines).Some? ==> ClosestTotal(lines, MainLine(lines).value)
    ensures MainLine(lines).None? <==> forall j :: 0 <= j < |lines| ==> !OverAndUnder(lines[j])
  {
    forall j | 0 <= j < |lines| ensures ValidTotals(lines[j]) <==> OverAndUnder(lines[j]) {
      UsableIs(lines[j]);
    }
    if MainLine(lines).Some? {
      var k := MainLine(lines).value;
      assert IsMainLine(lines, k);
      hide MainLine, NoFarther, Cost;
      forall j | 0 <= j < |lines| && OverAndUnder(lines[j]) ensures NoFarther(lines[k], lines[j], j < k) {
        CheaperIsCloser(lines[k], lines[j]);
      }
    }
  }

  /** Only one line is the closest total. */
  lemma ClosestIsMainLine(lines: seq<OddsLine>, k: nat)
    requires ClosestTotal(lines, k)
    ensures MainLine(lines) == Some(k)
  {
    MainLineIsClosest(lines);
    hide MainLine;
    assert MainLine(lines).Some?;
    var l := MainLine(lines).value;
    assert NoFarther(lines[k], lines[l], l < k) && NoFarther(lines[l], lines[k], k < l);
  }

  lemma {:induction false} FirstIs<T>(rows: seq<T>, p: T -> bool, k: nat)
    requires k < |rows| && p(rows[k]) && forall j :: 0 <= j < k ==> !p(rows[j])
    ensures First(rows, p) == Some(k)
  {
    var ids := Where(rows, p);
    assert k in ids;
    assert ids[0] < |rows| && p(rows[ids[0]]);
    var i :| 0 <= i < |ids| && ids[i] == k;
  }

  lemma NoneIsFirst<T>(rows: seq<T>, p: T -> bool)
    requires forall j :: 0 <= j < |rows| ==> !p(rows[j])
    ensures First(rows, p) == None
  {
    WhereNone(rows, p);
  }

  // ---------- what ends up on offer ----------

  /** The event's first market of the kind. */
  predicate Slot(c: Catalogue, e: nat, kind: MarketType, m: nat) {
    && m < |c.markets| && c.markets[m].eventId == e && c.markets[m].kind == kind
    && forall j :: 0 <= j < m ==> c.markets[j].eventId != e || c.markets[j].kind != kind
  }

  /** The bookmaker's first market of the kind. */
  predicate FirstOfKind(offered: seq<ApiMarket>, kind: ApiKind, a: nat) {
    a < |offered| && offered[a].kind == kind && forall j :: 0 <= j < a ==> offered[j].kind != kind
  }

  /** The market has the outcome, at this price as it is stored. */
  ghost predicate PricedAt(c: Catalogue, m: nat, code: OutcomeCode, price: real) {
    && (exists o :: 0 <= o < |c.outcomes| && c.outcomes[o].marketId == m && c.outcomes[o].code == code)
    && (forall o :: 0 <= o < |c.outcomes| && c.outcomes[o].marketId == m && c.outcomes[o].code == code ==>
          StoredOdds(price) == Some(c.outcomes[o].odds))
  }

  lemma SlotIsFirst(c: Catalogue, e: nat, kind: MarketType, m: nat)
    requires Slot(c, e, kind, m)
    ensures First(c.markets, MarketOfKind(e, kind)) == Some(m)
  {
    FirstIs(c.markets, MarketOfKind(e, kind), m);
  }

  lemma QuotedIsPricedAt(c: Catalogue, m: nat, code: OutcomeCode, price: real)
    requires Sane(c) && StoredOdds(price).Some? && PriceOf(c, m, code) == StoredOdds(price)
    ensures PricedAt(c, m, code, price)
  {
    hide StoredOdds, PriceOf;
    var row := PriceHasRow(c, m, code);
    forall o | 0 <= o < |c.outcomes| && c.outcomes[o].marketId == m && c.outcomes[o].code == code
      ensures StoredOdds(price) == Some(c.outcomes[o].odds)
    {
      PriceOfRow(c, o);
    }
  }

  /** An outcome that took a quote without an error took a price that can be stored. */
  lemma {:induction false} TakenIsStorable(c: Catalogue, m: nat, quotes: seq<(OutcomeCode, real)>, i: nat)
    requires Upserts(c, m, quotes).error.None? && i < |quotes|
    ensures StoredOdds(quotes[i].1).Some?
  {
    hide StoredOdds;
    if i < |quotes| - 1 {
      TakenIsStorable(c, m, quotes[..|quotes| - 1], i);
    }
  }

  lemma OfferedIsStorable(c: Catalogue, m: nat, quotes: seq<(OutcomeCode, real)>, i: nat)
    requires m < |c.markets| && Offer(c, m, quotes).error.None? && i < |quotes|
    ensures StoredOdds(quotes[i].1).Some?
  {
    hide StoredOdds, Upserts;
    TakenIsStorable(c, m, quotes, i);
  }

  /** What a usable match line quotes, code by code. */
  lemma MatchLineQuotes(l: OddsLine)
    requires HomeAndAway(l)
    ensures ValidML()(l) && QuoteFor(MLQuotes(l), OutcomeHome) == l.home && QuoteFor(MLQuotes(l), OutcomeAway) == l.away
    ensures QuoteFor(MLQuotes(l), OutcomeDraw) == if l.draw.Some? && l.draw.value > 1.0 then l.draw else None
    ensures forall i :: 0 <= i < |MLQuotes(l)| ==> QuoteFor(MLQuotes(l), MLQuotes(l)[i].0) == Some(MLQuotes(l)[i].1)
    ensures forall code :: QuoteFor(MLQuotes(l), code).Some? ==>
      exists i :: 0 <= i < |MLQuotes(l)| && Some(MLQuotes(l)[i].1) == QuoteFor(MLQuotes(l), code)
  {
    var q, home, away := MLQuotes(l), (OutcomeHome, l.home.value), (OutcomeAway, l.away.value);
    var draw := if l.draw.Some? && l.draw.value > 1.0 then [(OutcomeDraw, l.draw.value)] else [];
    assert q == [] + [home] + draw + [away];
    forall code ensures QuoteFor(q, code) == if code == OutcomeAway then l.away else if code == OutcomeHome then l.home
                                             else if code == OutcomeDraw && |draw| > 0 then l.draw else None {
      QuoteSnoc([] + [home] + draw, away, code);
      if |draw| > 0 {
        QuoteSnoc([] + [home], draw[0], code);
        assert [] + [home] + draw == [] + [home] + [draw[0]];
      } else {
        assert [] + [home] + draw == [] + [home];
      }
      QuoteSnoc([], home, code);
    }
    assert q[0] == home && q[|q| - 1] == away && (|draw| > 0 ==> q[1] == draw[0]);
  }

  lemma QuoteSnoc(quotes: seq<(OutcomeCode, real)>, last: (OutcomeCode, real), code: OutcomeCode)
    ensures QuoteFor(quotes + [last], code) == if last.0 == code then Some(last.1) else QuoteFor(quotes, code)
  {
    assert (quotes + [last])[..|quotes|] == quotes;
  }

  lemma TotalLineQuotes(l: OddsLine)
    requires OverAndUnder(l)
    ensures ValidTotals(l) && QuoteFor(TotalsQuotes(l), OutcomeOver) == l.over && QuoteFor(TotalsQuotes(l), OutcomeUnder) == l.under
    ensures |TotalsQuotes(l)| == 2 && Some(TotalsQuotes(l)[0].1) == l.over && Some(TotalsQuotes(l)[1].1) == l.under
  {
    var q := TotalsQuotes(l);
    assert q[..1] == [(OutcomeOver, l.over.value)] && |q[..1][..0]| == 0;
  }

  // ---------- the match ----------

  lemma MatchIsUsable(offered: seq<ApiMarket>, a: nat, k: nat)
    requires FirstOfKind(offered, ApiML, a) && FirstMatchLine(offered[a].lines, k)
    ensures UsableML(Some(offered)) == Some(offered[a].lines[k])
    ensures First(offered, OfKind(ApiML)) == Some(a) && First(offered[a].lines, ValidML()) == Some(k)
  {
    FirstIs(offered, OfKind(ApiML), a);
    forall j | 0 <= j <= k ensures ValidML()(offered[a].lines[j]) <==> HomeAndAway(offered[a].lines[j]) {
      UsableIs(offered[a].lines[j]);
    }
    hide First, ValidML;
    FirstIs(offered[a].lines, ValidML(), k);
  }

  lemma MatchIsStorable(c: Catalogue, e: nat, offered: seq<ApiMarket>, m: nat, a: nat, k: nat, i: nat)
    requires Slot(c, e, MarketML, m) && FirstOfKind(offered, ApiML, a) && FirstMatchLine(offered[a].lines, k)
    requires ApplyEvent(c, e, Some(offered)).error.None? && ValidML()(offered[a].lines[k]) && i < |MLQuotes(offered[a].lines[k])|
    ensures StoredOdds(MLQuotes(offered[a].lines[k])[i].1).Some?
  {
    SlotIsFirst(c, e, MarketML, m);
    MatchIsUsable(offered, a, k);
    hide StoredOdds, First, Offer, MLQuotes;
    assert SyncMarket(c, e, MarketML, offered).error.None?;
    assert ApplyML(c, m, offered[a].lines).error.None?;
    OfferedIsStorable(c, m, MLQuotes(offered[a].lines[k]), i);
  }

  /**
   * After a complete sync the match is open at the first line that prices home and away: home at its home price, away at its
   * away price, and the draw at its draw price when it has one above 1.0.
   */
  lemma MatchIsOffered(c: Catalogue, e: nat, offered: seq<ApiMarket>, m: nat, a: nat, k: nat)
    requires Sane(c) && Slot(c, e, MarketML, m) && ApplyEvent(c, e, Some(offered)).error.None?
    requires FirstOfKind(offered, ApiML, a) && FirstMatchLine(offered[a].lines, k)
    ensures var next, l := ApplyEvent(c, e, Some(offered)).cat, offered[a].lines[k];
      && m < |next.markets| && next.markets[m].status == MarketOpen
      && PricedAt(next, m, OutcomeHome, l.home.value) && PricedAt(next, m, OutcomeAway, l.away.value)
      && (l.draw.Some? && l.draw.value > 1.0 ==> PricedAt(next, m, OutcomeDraw, l.draw.value))
  {
    var next, l := ApplyEvent(c, e, Some(offered)).cat, offered[a].lines[k];
    SlotIsFirst(c, e, MarketML, m);
    MatchIsUsable(offered, a, k);
    MatchLineQuotes(l);
    MLFollowsQuotes(c, e, Some(offered), m);
    Lifecycle.ApplyEventEvolves(c, e, Some(offered));
    assert MLOffer(Some(offered)) == MLQuotes(l);
    hide ApplyEvent, MLQuotes, MLOffer, UsableML, First, StoredOdds, PriceOf, QuoteFor, ValidML, Sane, PricedAt;
    CodeIsOffered(c, e, offered, m, a, k, OutcomeHome);
    CodeIsOffered(c, e, offered, m, a, k, OutcomeAway);
    if l.draw.Some? && l.draw.value > 1.0 {
      CodeIsOffered(c, e, offered, m, a, k, OutcomeDraw);
    }
  }

  lemma CodeIsOffered(c: Catalogue, e: nat, offered: seq<ApiMarket>, m: nat, a: nat, k: nat, code: OutcomeCode)
    requires Sane(c) && Slot(c, e, MarketML, m) && ApplyEvent(c, e, Some(offered)).error.None?
    requires FirstOfKind(offered, ApiML, a) && FirstMatchLine(offered[a].lines, k) && ValidML()(offered[a].lines[k])
    requires QuoteFor(MLQuotes(offered[a].lines[k]), code).Some?
    requires MLOffer(Some(offered)) == MLQuotes(offered[a].lines[k])
    ensures PricedAt(ApplyEvent(c, e, Some(offered)).cat, m, code, QuoteFor(MLQuotes(offered[a].lines[k]), code).value)
  {
    var l := offered[a].lines[k];
    SlotIsFirst(c, e, MarketML, m);
    MatchLineQuotes(l);
    MLFollowsQuotes(c, e, Some(offered), m);
    Lifecycle.ApplyEventEvolves(c, e, Some(offered));
    hide ApplyEvent, MLQuotes, MLOffer, UsableML, First, StoredOdds, PriceOf, QuoteFor, ValidML, Sane;
    var i :| 0 <= i < |MLQuotes(l)| && Some(MLQuotes(l)[i].1) == QuoteFor(MLQuotes(l), code);
    MatchIsStorable(c, e, offered, m, a, k, i);
    QuotedIsPricedAt(ApplyEvent(c, e, Some(offered)).cat, m, code, QuoteFor(MLQuotes(l), code).value);
  }

  /** Without a usable line the match is suspended at the prices it has. */
  lemma MatchIsSuspended(c: Catalogue, e: nat, quotes: Option<seq<ApiMarket>>, m: nat)
    requires Slot(c, e, MarketML, m) && ApplyEvent(c, e, quotes).error.None?
    requires quotes.Some? ==> forall a: nat, j: nat ::
      FirstOfKind(quotes.value, ApiML, a) && j < |quotes.value[a].lines| ==> !HomeAndAway(quotes.value[a].lines[j])
    ensures var next := ApplyEvent(c, e, quotes).cat;
      m < |next.markets| && next.markets[m].status == MarketSuspended && forall code :: PriceOf(next, m, code) == PriceOf(c, m, code)
  {
    SlotIsFirst(c, e, MarketML, m);
    NoMatchIsUsable(quotes);
    MLFollowsQuotes(c, e, quotes, m);
    assert MLOffer(quotes) == [];
    hide ApplyEvent, MLOffer, UsableML, First, PriceOf, Repriced;
    forall code ensures PriceOf(ApplyEvent(c, e, quotes).cat, m, code) == PriceOf(c, m, code) {
      NothingRepriced(c, m, code);
    }
  }

  lemma KindIsFirst(offered: seq<ApiMarket>, kind: ApiKind)
    ensures First(offered, OfKind(kind)).Some? ==> FirstOfKind(offered, kind, First(offered, OfKind(kind)).value)
  {
    var ids := Where(offered, OfKind(kind));
    if ids != [] {
      forall j | 0 <= j < ids[0] ensures offered[j].kind != kind {
        assert OfKind(kind)(offered[j]) ==> j in ids;
      }
    }
  }

  lemma NoMatchIsUsable(quotes: Option<seq<ApiMarket>>)
    requires quotes.Some? ==> forall a: nat, j: nat ::
      FirstOfKind(quotes.value, ApiML, a) && j < |quotes.value[a].lines| ==> !HomeAndAway(quotes.value[a].lines[j])
    ensures UsableML(quotes) == None
  {
    var offered := if quotes.Some? then quotes.value else [];
    KindIsFirst(offered, ApiML);
    UsableLinesAreValid(quotes);
    hide First, ValidML, OfKind;
    var a := First(offered, OfKind(ApiML));
    if a.Some? {
      forall j | 0 <= j < |offered[a.value].lines| ensures !ValidML()(offered[a.value].lines[j]) {
        UsableIs(offered[a.value].lines[j]);
      }
      NoneIsFirst(offered[a.value].lines, ValidML());
    }
  }

  // ---------- the total ----------

  lemma TotalIsUsable(offered: seq<ApiMarket>, a: nat, k: nat)
    requires FirstOfKind(offered, ApiTotals, a) && ClosestTotal(offered[a].lines, k)
    ensures UsableTotals(Some(offered)) == Some(offered[a].lines[k])
    ensures First(offered, OfKind(ApiTotals)) == Some(a) && MainLine(offered[a].lines) == Some(k)
  {
    FirstIs(offered, OfKind(ApiTotals), a);
    ClosestIsMainLine(offered[a].lines, k);
    hide First, MainLine;
  }

  lemma TotalIsStorable(c: Catalogue, e: nat, offered: seq<ApiMarket>, t: nat, a: nat, k: nat, i: nat)
    requires Slot(c, e, MarketTotals, t) && FirstOfKind(offered, ApiTotals, a) && ClosestTotal(offered[a].lines, k)
    requires ApplyEvent(c, e, Some(offered)).error.None? && ValidTotals(offered[a].lines[k])
    requires i < |TotalsQuotes(offered[a].lines[k])|
    ensures StoredOdds(TotalsQuotes(offered[a].lines[k])[i].1).Some?
  {
    SlotIsFirst(c, e, MarketTotals, t);
    TotalIsUsable(offered, a, k);
    MLKeepsTotalsSlot(c, e, offered);
    var mid := SyncMarket(c, e, MarketML, offered).cat;
    FirstExists(mid.markets, MarketOfKind(e, MarketTotals));
    hide StoredOdds, First, Offer, TotalsQuotes, MainLine, StoredLine, SameLine, ApplyML;
    assert SyncMarket(mid, e, MarketTotals, offered).error.None?;
    assert ApplyTotals(mid, t, offered[a].lines).error.None?;
    var line, quotes := offered[a].lines[k].hdp.value, TotalsQuotes(offered[a].lines[k]);
    var lined := if SameLine(mid.markets[t].line, line) then mid else UpdateLine(mid, t, Some(line)).value;
    OfferedIsStorable(lined, t, quotes, i);
  }

  /** The stored line is the quoted one, rounded to hundredths. */
  predicate LineIs(stored: Option<int>, line: real) {
    stored.Some? && -0.5 <= line * 100.0 - stored.value as real <= 0.5
  }

  lemma CarriedIsLine(c: Catalogue, t: nat, line: real)
    requires Carries(c, t, line) && c.markets[t].line.Some?
    ensures LineIs(c.markets[t].line, line)
  {
    Rounding.StoredLineIs(line);
    hide StoredLine;
  }

  /**
   * After a complete sync the total is open at the line priced closest to 1.90/1.90, the earliest of them, with over at its
   * over price and under at its under price.
   */
  lemma TotalIsOffered(c: Catalogue, e: nat, offered: seq<ApiMarket>, t: nat, a: nat, k: nat)
    requires Sane(c) && Slot(c, e, MarketTotals, t) && ApplyEvent(c, e, Some(offered)).error.None?
    requires FirstOfKind(offered, ApiTotals, a) && ClosestTotal(offered[a].lines, k)
    ensures var next, l := ApplyEvent(c, e, Some(offered)).cat, offered[a].lines[k];
      && t < |next.markets| && next.markets[t].status == MarketOpen && LineIs(next.markets[t].line, l.hdp.value)
      && PricedAt(next, t, OutcomeOver, l.over.value) && PricedAt(next, t, OutcomeUnder, l.under.value)
  {
    var next, l := ApplyEvent(c, e, Some(offered)).cat, offered[a].lines[k];
    SlotIsFirst(c, e, MarketTotals, t);
    TotalIsUsable(offered, a, k);
    TotalLineQuotes(l);
    TotalsFollowQuotes(c, e, Some(offered), t);
    Lifecycle.ApplyEventEvolves(c, e, Some(offered));
    assert TotalsOffer(Some(offered)) == TotalsQuotes(l);
    hide ApplyEvent, TotalsQuotes, TotalsOffer, UsableTotals, First, StoredOdds, PriceOf, QuoteFor, MainLine, Sane, Carries,
      ClosestTotal;
    TotalIsStorable(c, e, offered, t, a, k, 0);
    TotalIsStorable(c, e, offered, t, a, k, 1);
    QuotedIsPricedAt(next, t, OutcomeOver, l.over.value);
    QuotedIsPricedAt(next, t, OutcomeUnder, l.under.value);
    PricedTotalHasLine(c, next, e, t);
    CarriedIsLine(next, t, l.hdp.value);
  }

  lemma PricedTotalHasLine(c: Catalogue, next: Catalogue, e: nat, t: nat)
    requires Sane(next) && Lifecycle.Evolves(c, next, e) && t < |c.markets| && c.markets[t].kind == MarketTotals
    requires exists o :: 0 <= o < |next.outcomes| && next.outcomes[o].marketId == t
    ensures t < |next.markets| && next.markets[t].line.Some?
  {
    assert Lifecycle.MarketEvolves(c, next, e, t);
    var o :| 0 <= o < |next.outcomes| && next.outcomes[o].marketId == t;
    assert SaneOutcome(next, o);
  }

  /** Without a usable total the market is suspended at the prices it has. */
  lemma TotalIsSuspended(c: Catalogue, e: nat, quotes: Option<seq<ApiMarket>>, t: nat)
    requires Slot(c, e, MarketTotals, t) && ApplyEvent(c, e, quotes).error.None?
    requires quotes.Some? ==> forall a: nat, j: nat ::
      FirstOfKind(quotes.value, ApiTotals, a) && j < |quotes.value[a].lines| ==> !OverAndUnder(quotes.value[a].lines[j])
    ensures var next := ApplyEvent(c, e, quotes).cat;
      t < |next.markets| && next.markets[t].status == MarketSuspended && forall code :: PriceOf(next, t, code) == PriceOf(c, t, code)
  {
    SlotIsFirst(c, e, MarketTotals, t);
    NoTotalIsUsable(quotes);
    TotalsFollowQuotes(c, e, quotes, t);
    assert TotalsOffer(quotes) == [];
    hide ApplyEvent, TotalsOffer, UsableTotals, First, PriceOf, Repriced;
    forall code ensures PriceOf(ApplyEvent(c, e, quotes).cat, t, code) == PriceOf(c, t, code) {
      NothingRepriced(c, t, code);
    }
  }

  lemma NoTotalIsUsable(quotes: Option<seq<ApiMarket>>)
    requires quotes.Some? ==> forall a: nat, j: nat ::
      FirstOfKind(quotes.value, ApiTotals, a) && j < |quotes.value[a].lines| ==> !OverAndUnder(quotes.value[a].lines[j])
    ensures UsableTotals(quotes) == None
  {
    var offered := if quotes.Some? then quotes.value else [];
    KindIsFirst(offered, ApiTotals);
    hide First, OfKind, MainLine;
    var a := First(offered, OfKind(ApiTotals));
    if a.Some? {
      MainLineIsClosest(offered[a.value].lines);
    }
  }
}
