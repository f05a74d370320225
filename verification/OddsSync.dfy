/** OddsSyncWorker: choosing the quotes of an event and writing them. */
module OddsSync {
  import opened Sums
  import opened Domain
  import opened CatalogueOps

  /** A quote string, already decoded: None when it is empty or not a number. */
  type Quote = Option<real>

  datatype OddsLine = OddsLine(hdp: Quote, home: Quote, draw: Quote, away: Quote, over: Quote, under: Quote)
  datatype ApiKind = ApiML | ApiTotals | ApiOther
  datatype ApiMarket = ApiMarket(kind: ApiKind, lines: seq<OddsLine>)

  const TOTALS_TARGET := 1.90

  function ParseOdds(raw: Quote): Quote {
    if raw.Some? && raw.value > 1.0 then raw else None
  }

  // ---------- choosing a line ----------

  function Abs(x: real): real { if x < 0.0 then -x else x }

  predicate ValidTotals(l: OddsLine) {
    l.hdp.Some? && ParseOdds(l.over).Some? && ParseOdds(l.under).Some?
  }

  function Cost(l: OddsLine): real
    requires ValidTotals(l)
  {
    Abs(l.over.value - TOTALS_TARGET) + Abs(l.under.value - TOTALS_TARGET)
  }

  /** k is the earliest of the valid lines closest to 1.90/1.90. */
  ghost predicate IsMainLine(lines: seq<OddsLine>, k: nat) {
    && k < |lines| && ValidTotals(lines[k])
    && forall j :: 0 <= j < |lines| && ValidTotals(lines[j]) ==>
         Cost(lines[k]) <= Cost(lines[j]) && (j < k ==> Cost(lines[k]) < Cost(lines[j]))
  }

  /** The main line exists exactly when some line is valid. */
  function MainLine(lines: seq<OddsLine>): (r: Option<nat>)
    ensures r.Some? ==> IsMainLine(lines, r.value)
    ensures r.None? ==> forall j :: 0 <= j < |lines| ==> !ValidTotals(lines[j])
  {
    if |lines| == 0 then None
    else
      var best := MainLine(lines[..|lines| - 1]);
      var last := |lines| - 1;
      if !ValidTotals(lines[last]) then best
      else if best.None? || Cost(lines[last]) < Cost(lines[best.value]) then Some(last)
      else best
  }

  method PickMainTotalsLine(lines: seq<OddsLine>) returns (line: real, over: real, under: real, ok: bool)
    ensures ok <==> exists k :: 0 <= k < |lines| && ValidTotals(lines[k])
    ensures ok ==> exists k: nat ::
      IsMainLine(lines, k) && line == lines[k].hdp.value && over == lines[k].over.value && under == lines[k].under.value
    ensures var k := MainLine(lines);
      && (ok <==> k.Some?)
      && (ok ==> ValidTotals(lines[k.value]))
      && (ok ==> (line, over, under) == (lines[k.value].hdp.value, lines[k.value].over.value, lines[k.value].under.value))
  {
    line, over, under, ok := 0.0, 0.0, 0.0, false;
    var bestCost := 0.0;
    for i := 0 to |lines|
      invariant var k := MainLine(lines[..i]);
        && (ok <==> k.Some?)
        && (ok ==> bestCost == Cost(lines[k.value]))
        && (ok ==> (line, over, under) == (lines[k.value].hdp.value, lines[k.value].over.value, lines[k.value].under.value))
    {
      var l := lines[i];
      assert lines[..i + 1][..i] == lines[..i];
      if l.hdp.Some? {
        var o, u := ParseOdds(l.over), ParseOdds(l.under);
        if o.Some? && u.Some? {
          var cost := Abs(o.value - TOTALS_TARGET) + Abs(u.value - TOTALS_TARGET);
          if !ok || cost < bestCost {
            line, over, under, bestCost, ok := l.hdp.value, o.value, u.value, cost, true;
          }
        }
      }
    }
    assert lines[..|lines|] == lines;
  }

  function ValidML(): OddsLine -> bool {
    (l: OddsLine) => ParseOdds(l.home).Some? && ParseOdds(l.away).Some?
  }

  function First<T>(rows: seq<T>, p: T -> bool): Option<nat> {
    var ids := Where(rows, p);
    if ids == [] then None else Some(ids[0])
  }

  method PickMLLine(lines: seq<OddsLine>) returns (r: Option<OddsLine>)
    ensures r.None? <==> First(lines, ValidML()).None?
    ensures r.Some? ==> r.value == lines[First(lines, ValidML()).value] && ValidML()(r.value)
  {
    for i := 0 to |lines|
      invariant forall j :: 0 <= j < i ==> !ValidML()(lines[j])
    {
      if ParseOdds(lines[i].home).Some? && ParseOdds(lines[i].away).Some? {
        assert ValidML()(lines[i]);
        return Some(lines[i]);
      }
    }
    return None;
  }

  /** chunkEvents: consecutive batches of at most size events that concatenate back to the input. */
  method ChunkEvents<T>(evs: seq<T>, size: nat) returns (chunks: seq<seq<T>>)
    requires size > 0
    ensures Flat(chunks) == evs
    ensures forall k :: 0 <= k < |chunks| ==> 0 < |chunks[k]| <= size
    ensures forall k :: 0 <= k < |chunks| - 1 ==> |chunks[k]| == size
  {
    chunks := [];
    var i := 0;
    while i < |evs|
      invariant 0 <= i
      invariant Flat(chunks) == evs[..if i < |evs| then i else |evs|]
      invariant forall k :: 0 <= k < |chunks| ==> 0 < |chunks[k]| <= size
      invariant forall k :: 0 <= k < |chunks| ==> k < |chunks| - 1 || i < |evs| ==> |chunks[k]| == size
    {
      var end := if i + size > |evs| then |evs| else i + size;
      assert (chunks + [evs[i..end]])[..|chunks|] == chunks;
      assert evs[..i] + evs[i..end] == evs[..end];
      chunks := chunks + [evs[i..end]];
      i := i + size;
    }
    assert evs[..|evs|] == evs;
  }

  function Flat<T>(chunks: seq<seq<T>>): seq<T> {
    if |chunks| == 0 then [] else Flat(chunks[..|chunks| - 1]) + chunks[|chunks| - 1]
  }

  // ---------- writing the quotes ----------

  /** A worker step that may stop half way: what was written, and the error that stopped it. */
  datatype Sync = Sync(cat: Catalogue, error: Option<Error>)

  function EnsureStatus(c: Catalogue, m: nat, want: MarketStatus): Catalogue
    requires m < |c.markets|
  {
    if c.markets[m].status == want then c else c.(markets := c.markets[m := c.markets[m].(status := want)])
  }

  function Upserts(c: Catalogue, m: nat, quotes: seq<(OutcomeCode, real)>): Sync {
    if |quotes| == 0 then Sync(c, None)
    else
      var before := Upserts(c, m, quotes[..|quotes| - 1]);
      if before.error.Some? then before
      else
        match UpsertOutcome(before.cat, m, quotes[|quotes| - 1].0, quotes[|quotes| - 1].1)
        case Err(error) => Sync(before.cat, Some(error))
        case Ok(next) => Sync(next, None)
  }

  lemma UpsertsAppend(c: Catalogue, m: nat, quotes: seq<(OutcomeCode, real)>, quote: (OutcomeCode, real))
    ensures Upserts(c, m, quotes + [quote]) ==
      var before := Upserts(c, m, quotes);
      if before.error.Some? then before
      else
        match UpsertOutcome(before.cat, m, quote.0, quote.1)
        case Err(error) => Sync(before.cat, Some(error))
        case Ok(next) => Sync(next, None)
  {
    hide UpsertOutcome;
    assert (quotes + [quote])[..|quotes|] == quotes;
  }

  lemma UpsertKeepsMarkets(c: Catalogue, m: nat, code: OutcomeCode, odds: real)
    requires UpsertOutcome(c, m, code, odds).Ok?
    ensures var next := UpsertOutcome(c, m, code, odds).value; next.markets == c.markets && next.events == c.events
  {
  }

  lemma {:induction false} UpsertsKeepMarkets(c: Catalogue, m: nat, quotes: seq<(OutcomeCode, real)>)
    ensures Upserts(c, m, quotes).cat.markets == c.markets && Upserts(c, m, quotes).cat.events == c.events
  {
    hide StoredOdds;
    if |quotes| > 0 {
      UpsertsKeepMarkets(c, m, quotes[..|quotes| - 1]);
    }
  }

  /** Upsert the quotes of one market, then open it. */
  function Offer(c: Catalogue, m: nat, quotes: seq<(OutcomeCode, real)>): Sync
    requires m < |c.markets|
  {
    UpsertsKeepMarkets(c, m, quotes);
    var written := Upserts(c, m, quotes);
    if written.error.Some? then written else Sync(EnsureStatus(written.cat, m, MarketOpen), None)
  }

  function MLQuotes(l: OddsLine): seq<(OutcomeCode, real)>
    requires ValidML()(l)
  {
    [(OutcomeHome, l.home.value)]
    + (if ParseOdds(l.draw).Some? then [(OutcomeDraw, l.draw.value)] else [])
    + [(OutcomeAway, l.away.value)]
  }

  function ApplyML(c: Catalogue, m: nat, lines: seq<OddsLine>): Sync
    requires m < |c.markets|
  {
    match First(lines, ValidML())
    case None => Sync(EnsureStatus(c, m, MarketSuspended), None)
    case Some(k) => Offer(c, m, MLQuotes(lines[k]))
  }

  /** The stored line equals the quoted one exactly. */
  predicate SameLine(stored: Option<int>, line: real) {
    stored.Some? && stored.value as real == line * 100.0
  }

  function TotalsQuotes(l: OddsLine): seq<(OutcomeCode, real)>
    requires ValidTotals(l)
  {
    [(OutcomeOver, l.over.value), (OutcomeUnder, l.under.value)]
  }

  function ApplyTotals(c: Catalogue, m: nat, lines: seq<OddsLine>): Sync
    requires m < |c.markets|
  {
    match MainLine(lines)
    case None => Sync(EnsureStatus(c, m, MarketSuspended), None)
    case Some(k) =>
      var line := lines[k].hdp.value;
      if SameLine(c.markets[m].line, line) then Offer(c, m, TotalsQuotes(lines[k]))
      else
        match UpdateLine(c, m, Some(line))
        case Err(error) => Sync(c, Some(error))
        case Ok(next) => Offer(next, m, TotalsQuotes(lines[k]))
  }

  function OfKind(kind: ApiKind): ApiMarket -> bool { (m: ApiMarket) => m.kind == kind }

  function MarketOfKind(e: nat, kind: MarketType): Market -> bool {
    (m: Market) => m.eventId == e && m.kind == kind
  }

  /** One market of the event: apply the quotes of its kind, or suspend it when there are none. */
  function SyncMarket(c: Catalogue, e: nat, kind: MarketType, quotes: seq<ApiMarket>): Sync {
    match First(c.markets, MarketOfKind(e, kind))
    case None => Sync(c, None)
    case Some(m) =>
      var api := First(quotes, OfKind(if kind == MarketML then ApiML else ApiTotals));
      if api.None? then Sync(EnsureStatus(c, m, MarketSuspended), None)
      else if kind == MarketML then ApplyML(c, m, quotes[api.value].lines)
      else ApplyTotals(c, m, quotes[api.value].lines)
  }

  /** applyEvent; quotes is what the configured bookmaker offers, None when it offers nothing. */
  function ApplyEvent(c: Catalogue, e: nat, quotes: Option<seq<ApiMarket>>): Sync {
    var offered := if quotes.Some? then quotes.value else [];
    var ml := SyncMarket(c, e, MarketML, offered);
    if ml.error.Some? then ml else SyncMarket(ml.cat, e, MarketTotals, offered)
  }

  // ---------- writing the same quotes twice ----------

  lemma {:induction false} WhereSame<T>(a: seq<T>, b: seq<T>, p: T -> bool)
    requires |a| == |b| && forall i :: 0 <= i < |a| ==> p(a[i]) == p(b[i])
    ensures Where(a, p) == Where(b, p)
  {
    if |a| > 0 {
      WhereSame(a[..|a| - 1], b[..|b| - 1], p);
    }
  }

  lemma WhereAppend<T>(rows: seq<T>, row: T, p: T -> bool)
    ensures Where(rows + [row], p) == Where(rows, p) + if p(row) then [|rows|] else []
  {
    assert (rows + [row])[..|rows|] == rows;
  }

  /** The market offers this code at this stored price. */
  predicate Priced(c: Catalogue, m: nat, code: OutcomeCode, stored: Option<int>) {
    var o := First(c.outcomes, Keyed(m, code));
    o.Some? && stored == Some(c.outcomes[o.value].odds)
  }

  ghost predicate AllPriced(c: Catalogue, m: nat, quotes: seq<(OutcomeCode, real)>) {
    forall i :: 0 <= i < |quotes| ==> Priced(c, m, quotes[i].0, StoredOdds(quotes[i].1))
  }

  lemma UpsertPrices(c: Catalogue, m: nat, code: OutcomeCode, odds: real)
    requires UpsertOutcome(c, m, code, odds).Ok?
    ensures Priced(UpsertOutcome(c, m, code, odds).value, m, code, StoredOdds(odds))
  {
    hide StoredOdds, Where;
    var next := UpsertOutcome(c, m, code, odds).value;
    if Where(c.outcomes, Keyed(m, code)) == [] {
      WhereAppend(c.outcomes, next.outcomes[|c.outcomes|], Keyed(m, code));
    } else {
      WhereSame(c.outcomes, next.outcomes, Keyed(m, code));
    }
  }

  lemma UpsertKeepsOthersPriced(c: Catalogue, m: nat, code: OutcomeCode, odds: real,
                                m': nat, code': OutcomeCode, stored: Option<int>)
    requires UpsertOutcome(c, m, code, odds).Ok? && Priced(c, m', code', stored) && (m, code) != (m', code')
    ensures Priced(UpsertOutcome(c, m, code, odds).value, m', code', stored)
  {
    hide StoredOdds, Where;
    var next := UpsertOutcome(c, m, code, odds).value;
    var ids := Where(c.outcomes, Keyed(m, code));
    var o := Where(c.outcomes, Keyed(m', code'))[0];
    assert Keyed(m', code')(c.outcomes[o]);
    if ids == [] {
      assert !Keyed(m', code')(next.outcomes[|c.outcomes|]);
      WhereAppend(c.outcomes, next.outcomes[|c.outcomes|], Keyed(m', code'));
      assert Where(c.outcomes, Keyed(m', code')) + [] == Where(c.outcomes, Keyed(m', code'));
    } else {
      assert Keyed(m, code)(c.outcomes[ids[0]]) && o != ids[0];
      WhereSame(c.outcomes, next.outcomes, Keyed(m', code'));
    }
  }

  lemma UpsertAgain(c: Catalogue, m: nat, code: OutcomeCode, odds: real)
    requires m < |c.markets| && Priced(c, m, code, StoredOdds(odds))
    ensures UpsertOutcome(c, m, code, odds) == Ok(c)
  {
    hide StoredOdds;
    var o := Where(c.outcomes, Keyed(m, code))[0];
    assert c.outcomes[o := c.outcomes[o]] == c.outcomes;
  }

  ghost predicate DistinctCodes(quotes: seq<(OutcomeCode, real)>) {
    forall i, j :: 0 <= i < j < |quotes| ==> quotes[i].0 != quotes[j].0
  }

  lemma {:induction false} PricedUpserts(c: Catalogue, m: nat, quotes: seq<(OutcomeCode, real)>)
    requires m < |c.markets| && AllPriced(c, m, quotes)
    ensures Upserts(c, m, quotes) == Sync(c, None)
  {
    hide StoredOdds, UpsertOutcome, Priced;
    if |quotes| > 0 {
      PricedUpserts(c, m, quotes[..|quotes| - 1]);
      UpsertAgain(c, m, quotes[|quotes| - 1].0, quotes[|quotes| - 1].1);
    }
  }

  /** Upserting the same quotes again stops at the same place and changes nothing. */
  lemma {:induction false} UpsertsTwice(c: Catalogue, m: nat, quotes: seq<(OutcomeCode, real)>)
    requires m < |c.markets| && DistinctCodes(quotes)
    ensures var once := Upserts(c, m, quotes);
      && Upserts(once.cat, m, quotes) == once
      && (once.error.None? ==> AllPriced(once.cat, m, quotes))
  {
    hide StoredOdds, Priced, UpsertOutcome;
    if |quotes| > 0 {
      var front, last := quotes[..|quotes| - 1], quotes[|quotes| - 1];
      UpsertsTwice(c, m, front);
      UpsertsKeepMarkets(c, m, front);
      var before := Upserts(c, m, front);
      if before.error.None? && UpsertOutcome(before.cat, m, last.0, last.1).Ok? {
        var once := UpsertOutcome(before.cat, m, last.0, last.1).value;
        UpsertPrices(before.cat, m, last.0, last.1);
        UpsertKeepsMarkets(before.cat, m, last.0, last.1);
        forall i | 0 <= i < |front| ensures Priced(once, m, front[i].0, StoredOdds(front[i].1)) {
          UpsertKeepsOthersPriced(before.cat, m, last.0, last.1, m, front[i].0, StoredOdds(front[i].1));
        }
        PricedUpserts(once, m, front);
        UpsertAgain(once, m, last.0, last.1);
      }
    }
  }

  lemma {:induction false} UpsertsKeepOthersPriced(c: Catalogue, m: nat, quotes: seq<(OutcomeCode, real)>,
                                                   m': nat, others: seq<(OutcomeCode, real)>)
    requires m != m' && AllPriced(c, m', others)
    ensures AllPriced(Upserts(c, m, quotes).cat, m', others)
  {
    hide StoredOdds, Priced;
    if |quotes| > 0 {
      var front, last := quotes[..|quotes| - 1], quotes[|quotes| - 1];
      UpsertsKeepOthersPriced(c, m, front, m', others);
      var before := Upserts(c, m, front);
      if before.error.None? && UpsertOutcome(before.cat, m, last.0, last.1).Ok? {
        forall i | 0 <= i < |others|
          ensures Priced(UpsertOutcome(before.cat, m, last.0, last.1).value, m', others[i].0, StoredOdds(others[i].1))
        {
          UpsertKeepsOthersPriced(before.cat, m, last.0, last.1, m', others[i].0, StoredOdds(others[i].1));
        }
      }
    }
  }

  /** What a finished offer leaves behind: every quote stored and the market open. */
  ghost predicate Offered(c: Catalogue, m: nat, quotes: seq<(OutcomeCode, real)>) {
    m < |c.markets| && c.markets[m].status == MarketOpen && AllPriced(c, m, quotes)
  }

  lemma OfferTwice(c: Catalogue, m: nat, quotes: seq<(OutcomeCode, real)>)
    requires m < |c.markets| && DistinctCodes(quotes)
    ensures var once := Offer(c, m, quotes);
      && m < |once.cat.markets| && Offer(once.cat, m, quotes) == once
      && once.cat.markets[m] == c.markets[m].(status := once.cat.markets[m].status)
      && (once.error.None? ==> Offered(once.cat, m, quotes))
  {
    hide StoredOdds, Upserts;
    UpsertsTwice(c, m, quotes);
    UpsertsKeepMarkets(c, m, quotes);
    var written := Upserts(c, m, quotes);
    if written.error.None? {
      var once := Offer(c, m, quotes).cat;
      SamePricesAfterStatus(written.cat, once, m, quotes);
      PricedUpserts(once, m, quotes);
    }
  }

  lemma OfferAgain(c: Catalogue, m: nat, quotes: seq<(OutcomeCode, real)>)
    requires Offered(c, m, quotes)
    ensures Offer(c, m, quotes) == Sync(c, None)
  {
    hide StoredOdds, Priced;
    PricedUpserts(c, m, quotes);
  }

  lemma SamePricesAfterStatus(c: Catalogue, next: Catalogue, m: nat, quotes: seq<(OutcomeCode, real)>)
    requires next.outcomes == c.outcomes && AllPriced(c, m, quotes)
    ensures AllPriced(next, m, quotes)
  {
    hide StoredOdds;
    forall i | 0 <= i < |quotes| ensures Priced(next, m, quotes[i].0, StoredOdds(quotes[i].1)) {
      assert Priced(c, m, quotes[i].0, StoredOdds(quotes[i].1));
    }
  }

  lemma ApplyMLTwice(c: Catalogue, m: nat, lines: seq<OddsLine>)
    requires m < |c.markets|
    ensures var once := ApplyML(c, m, lines);
      OneMarketMoved(c, once.cat, m) && ApplyML(once.cat, m, lines) == once
  {
    hide StoredOdds, Offer;
    var best := First(lines, ValidML());
    if best.Some? {
      OfferTwice(c, m, MLQuotes(lines[best.value]));
      OfferKeepsKinds(c, m, MLQuotes(lines[best.value]));
    }
  }

  lemma SyncMLTwice(c: Catalogue, e: nat, quotes: seq<ApiMarket>)
    ensures var once := SyncMarket(c, e, MarketML, quotes);
      SyncMarket(once.cat, e, MarketML, quotes) == once
  {
    hide ApplyML;
    var slot := First(c.markets, MarketOfKind(e, MarketML));
    if slot.Some? {
      var api := First(quotes, OfKind(ApiML));
      if api.Some? {
        ApplyMLTwice(c, slot.value, quotes[api.value].lines);
      }
      SameSlots(c, SyncMarket(c, e, MarketML, quotes).cat, slot.value, e, MarketML);
    }
  }

  lemma OfferKeepsKinds(c: Catalogue, m: nat, quotes: seq<(OutcomeCode, real)>)
    requires m < |c.markets|
    ensures var once := Offer(c, m, quotes).cat; OneMarketMoved(c, once, m) && once.markets[m].line == c.markets[m].line
  {
    hide StoredOdds, Upserts;
    UpsertsKeepMarkets(c, m, quotes);
  }

  /** Only the status and line of market m may differ. */
  ghost predicate OneMarketMoved(c: Catalogue, next: Catalogue, m: nat) {
    && m < |c.markets| == |next.markets|
    && next.markets[m] == c.markets[m].(status := next.markets[m].status, line := next.markets[m].line)
    && forall k :: 0 <= k < |c.markets| && k != m ==> next.markets[k] == c.markets[k]
  }

  lemma SameSlots(c: Catalogue, next: Catalogue, m: nat, e: nat, kind: MarketType)
    requires OneMarketMoved(c, next, m)
    ensures First(next.markets, MarketOfKind(e, kind)) == First(c.markets, MarketOfKind(e, kind))
  {
    WhereSame(c.markets, next.markets, MarketOfKind(e, kind));
  }

  lemma ApplyTotalsTwice(c: Catalogue, m: nat, lines: seq<OddsLine>)
    requires m < |c.markets|
    ensures var once := ApplyTotals(c, m, lines);
      OneMarketMoved(c, once.cat, m) && ApplyTotals(once.cat, m, lines) == once
  {
    hide StoredOdds, StoredLine, Offer;
    var best := MainLine(lines);
    if best.Some? {
      var quotes, line := TotalsQuotes(lines[best.value]), lines[best.value].hdp.value;
      if SameLine(c.markets[m].line, line) {
        OfferTwice(c, m, quotes);
        OfferKeepsKinds(c, m, quotes);
      } else if UpdateLine(c, m, Some(line)).Ok? {
        var moved := UpdateLine(c, m, Some(line)).value;
        OfferTwice(moved, m, quotes);
        OfferKeepsKinds(moved, m, quotes);
        var once := Offer(moved, m, quotes).cat;
        assert once.markets[m := once.markets[m]] == once.markets;
        assert UpdateLine(once, m, Some(line)) == Ok(once);
      }
    }
  }

  lemma SyncTotalsTwice(c: Catalogue, e: nat, quotes: seq<ApiMarket>)
    ensures var once := SyncMarket(c, e, MarketTotals, quotes);
      SyncMarket(once.cat, e, MarketTotals, quotes) == once
  {
    hide ApplyTotals;
    var slot := First(c.markets, MarketOfKind(e, MarketTotals));
    if slot.Some? {
      var api := First(quotes, OfKind(ApiTotals));
      if api.Some? {
        ApplyTotalsTwice(c, slot.value, quotes[api.value].lines);
      }
      SameSlots(c, SyncMarket(c, e, MarketTotals, quotes).cat, slot.value, e, MarketTotals);
    }
  }

  /** Synchronising the totals market disturbs no price and no status of another market. */
  lemma TotalsLeaveOthers(c: Catalogue, e: nat, quotes: seq<ApiMarket>, m: nat, offered: seq<(OutcomeCode, real)>)
    requires m < |c.markets| && c.markets[m].kind != MarketTotals && AllPriced(c, m, offered)
    ensures var next := SyncMarket(c, e, MarketTotals, quotes).cat;
      |next.markets| == |c.markets| && next.markets[m] == c.markets[m] && AllPriced(next, m, offered)
    ensures First(SyncMarket(c, e, MarketTotals, quotes).cat.markets, MarketOfKind(e, MarketML))
         == First(c.markets, MarketOfKind(e, MarketML))
  {
    var slot := First(c.markets, MarketOfKind(e, MarketTotals));
    assert slot.Some? ==> slot.value < |c.markets| && MarketOfKind(e, MarketTotals)(c.markets[slot.value]);
    hide ApplyTotals, AllPriced, First, Where;
    if slot.Some? {
      var t := slot.value;
      var next := SyncMarket(c, e, MarketTotals, quotes).cat;
      var api := First(quotes, OfKind(ApiTotals));
      if api.Some? {
        FirstExists(quotes, OfKind(ApiTotals));
        ApplyTotalsTwice(c, t, quotes[api.value].lines);
        TotalsKeepPrices(c, t, quotes[api.value].lines, m, offered);
      } else {
        SamePricesAfterStatus(c, next, m, offered);
      }
      SameSlots(c, next, t, e, MarketML);
    }
  }

  lemma FirstExists<T>(rows: seq<T>, p: T -> bool)
    ensures First(rows, p).Some? ==> First(rows, p).value < |rows| && p(rows[First(rows, p).value])
  {
  }

  lemma TotalsKeepPrices(c: Catalogue, t: nat, lines: seq<OddsLine>, m: nat, offered: seq<(OutcomeCode, real)>)
    requires t < |c.markets| && m != t && AllPriced(c, m, offered)
    ensures AllPriced(ApplyTotals(c, t, lines).cat, m, offered)
  {
    hide StoredOdds, StoredLine, Upserts, Priced, AllPriced;
    var best := MainLine(lines);
    if best.None? {
      SamePricesAfterStatus(c, ApplyTotals(c, t, lines).cat, m, offered);
    } else {
      var quotes, line := TotalsQuotes(lines[best.value]), lines[best.value].hdp.value;
      var same := SameLine(c.markets[t].line, line);
      if same || UpdateLine(c, t, Some(line)).Ok? {
        var moved := if same then c else UpdateLine(c, t, Some(line)).value;
        SamePricesAfterStatus(c, moved, m, offered);
        UpsertsKeepOthersPriced(moved, t, quotes, m, offered);
        UpsertsKeepMarkets(moved, t, quotes);
        SamePricesAfterStatus(Upserts(moved, t, quotes).cat, ApplyTotals(c, t, lines).cat, m, offered);
      }
    }
  }

  lemma NothingPriced(c: Catalogue, m: nat)
    ensures AllPriced(c, m, [])
  {
  }

  /** A priced and open ML market stays so while the totals market is synchronised. */
  lemma TotalsKeepOffer(c: Catalogue, e: nat, quotes: seq<ApiMarket>, m: nat, l: OddsLine)
    requires m < |c.markets| && c.markets[m].kind == MarketML && ValidML()(l) && Offer(c, m, MLQuotes(l)) == Sync(c, None)
    ensures var next := SyncMarket(c, e, MarketTotals, quotes).cat;
      |next.markets| == |c.markets| && Offer(next, m, MLQuotes(l)) == Sync(next, None)
  {
    assert DistinctCodes(MLQuotes(l));
    hide SyncMarket, AllPriced, Offer, MLQuotes, ValidML, DistinctCodes;
    OfferTwice(c, m, MLQuotes(l));
    TotalsLeaveOthers(c, e, quotes, m, MLQuotes(l));
    OfferAgain(SyncMarket(c, e, MarketTotals, quotes).cat, m, MLQuotes(l));
  }

  lemma TotalsKeepML(c: Catalogue, e: nat, quotes: seq<ApiMarket>)
    requires SyncMarket(c, e, MarketML, quotes) == Sync(c, None)
    ensures var next := SyncMarket(c, e, MarketTotals, quotes).cat;
      SyncMarket(next, e, MarketML, quotes) == Sync(next, None)
  {
    hide StoredOdds, StoredLine, ApplyTotals, AllPriced, Offer, MLQuotes;
    var slot := First(c.markets, MarketOfKind(e, MarketML));
    if slot.None? {
      TotalsKeepSlots(c, e, quotes);
    } else {
      var m := slot.value;
      var api := First(quotes, OfKind(ApiML));
      NothingPriced(c, m);
      TotalsLeaveOthers(c, e, quotes, m, []);
      if api.Some? && First(quotes[api.value].lines, ValidML()).Some? {
        var lines := quotes[api.value].lines;
        TotalsKeepOffer(c, e, quotes, m, lines[First(lines, ValidML()).value]);
      }
    }
  }

  lemma TotalsKeepSlots(c: Catalogue, e: nat, quotes: seq<ApiMarket>)
    ensures First(SyncMarket(c, e, MarketTotals, quotes).cat.markets, MarketOfKind(e, MarketML))
         == First(c.markets, MarketOfKind(e, MarketML))
  {
    hide ApplyTotals;
    var slot := First(c.markets, MarketOfKind(e, MarketTotals));
    if slot.Some? {
      var api := First(quotes, OfKind(ApiTotals));
      if api.Some? {
        ApplyTotalsTwice(c, slot.value, quotes[api.value].lines);
      }
      SameSlots(c, SyncMarket(c, e, MarketTotals, quotes).cat, slot.value, e, MarketML);
    }
  }

  /** Applying the same quotes twice, even when the first attempt stopped on an error, changes nothing the second time. */
  lemma ApplyEventTwice(c: Catalogue, e: nat, quotes: Option<seq<ApiMarket>>)
    ensures var once := ApplyEvent(c, e, quotes);
      ApplyEvent(once.cat, e, quotes) == once
  {
    hide SyncMarket;
    var offered := if quotes.Some? then quotes.value else [];
    SyncMLTwice(c, e, offered);
    var ml := SyncMarket(c, e, MarketML, offered);
    if ml.error.None? {
      TotalsKeepML(ml.cat, e, offered);
      SyncTotalsTwice(ml.cat, e, offered);
    }
  }
}
