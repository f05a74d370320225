/** OddsSyncWorker and EventSyncWorker: row by row and without a transaction. */
module FeedWorkers {
  import opened Sums
  import opened Domain
  import opened Plans
  import opened CatalogueOps
  import opened OddsSync
  import opened QuoteEffects
  import opened Store

  /**
   * A worker step outside any transaction: unless a statement is lost, it ends exactly as spec ends, with spec's error.
   */
  ghost predicate Follows(spec: Sync, after: Catalogue, err: Option<Error>) {
    err != Some(ErrConnection) ==> spec == Sync(after, err)
  }

  method EnsureStatus(db: Database, m: nat, want: MarketStatus) returns (err: Option<Error>)
    requires m < |db.markets|
    modifies db`markets, db`faults, db`sane
    ensures Follows(Sync(OddsSync.EnsureStatus(old(db.Cat()), m, want), None), db.Cat(), err)
    ensures err.Some? ==> err.value == ErrConnection && db.Cat() == old(db.Cat())
    ensures db.Lost() == old(db.Lost()) - LossOf(err)
    ensures old(db.AlwaysSane()) ==> db.AlwaysSane()
  {
    hide Database.AlwaysSane;
    if db.markets[m].status == want {
      return None;
    }
    err := db.MarketsUpdateStatus(m, want);
  }

  // ---------- the ML market ----------

  /** A candidate outcome, if its price parses. */
  function OneQuoted(cand: (OutcomeCode, Quote)): seq<(OutcomeCode, real)> {
    if ParseOdds(cand.1).Some? then [(cand.0, cand.1.value)] else []
  }

  function Quoted(cands: seq<(OutcomeCode, Quote)>): seq<(OutcomeCode, real)> {
    if |cands| == 0 then [] else Quoted(cands[..|cands| - 1]) + OneQuoted(cands[|cands| - 1])
  }

  lemma QuotedStep(cands: seq<(OutcomeCode, Quote)>, i: nat)
    requires i < |cands|
    ensures Quoted(cands[..i + 1]) == Quoted(cands[..i]) + OneQuoted(cands[i])
    ensures ParseOdds(cands[i].1).None? ==> Quoted(cands[..i + 1]) == Quoted(cands[..i])
  {
    assert cands[..i + 1][..i] == cands[..i];
  }

  lemma QuotedML(l: OddsLine)
    requires ValidML()(l)
    ensures Quoted([(OutcomeHome, l.home), (OutcomeDraw, l.draw), (OutcomeAway, l.away)]) == MLQuotes(l)
  {
    var cands := [(OutcomeHome, l.home), (OutcomeDraw, l.draw), (OutcomeAway, l.away)];
    QuotedStep(cands, 0);
    QuotedStep(cands, 1);
    QuotedStep(cands, 2);
    assert cands[..3] == cands;
  }

  /** What the first i candidates quote comes first in what all of them quote. */
  lemma {:induction false} QuotedPrefix(cands: seq<(OutcomeCode, Quote)>, i: nat)
    requires i <= |cands|
    ensures var k := |Quoted(cands[..i])|; k <= |Quoted(cands)| && Quoted(cands)[..k] == Quoted(cands[..i])
    decreases |cands| - i
  {
    if i < |cands| {
      QuotedStep(cands, i);
      QuotedPrefix(cands, i + 1);
      var k := |Quoted(cands[..i])|;
      assert Quoted(cands)[..k] == Quoted(cands)[..|Quoted(cands[..i + 1])|][..k];
    } else {
      assert cands[..i] == cands;
    }
  }

  lemma {:induction false} UpsertsStop(c: Catalogue, m: nat, cands: seq<(OutcomeCode, Quote)>, k: nat)
    requires k <= |cands| && Upserts(c, m, Quoted(cands[..k])).error.Some?
    ensures Upserts(c, m, Quoted(cands)) == Upserts(c, m, Quoted(cands[..k]))
    decreases |cands| - k
  {
    hide UpsertOutcome, Upserts, Quoted;
    if k < |cands| {
      QuotedStep(cands, k);
      if ParseOdds(cands[k].1).Some? {
        UpsertsAppend(c, m, Quoted(cands[..k]), OneQuoted(cands[k])[0]);
      }
      assert Upserts(c, m, Quoted(cands[..k + 1])) == Upserts(c, m, Quoted(cands[..k]));
      UpsertsStop(c, m, cands, k + 1);
    } else {
      assert cands[..k] == cands;
    }
  }

  /** upsertOutcome, if the candidate's price parses; otherwise it is skipped. */
  method UpsertOne(db: Database, m: nat, cand: (OutcomeCode, Quote)) returns (err: Option<Error>)
    modifies db`outcomes, db`faults, db`sane
    ensures ParseOdds(cand.1).None? ==> err == None && db.Cat() == old(db.Cat())
    ensures ParseOdds(cand.1).Some? ==>
      Concludes(UpsertOutcome(old(db.Cat()), m, cand.0, cand.1.value), old(db.Cat()), db.Cat(), err)
    ensures db.Lost() == old(db.Lost()) - LossOf(err)
    ensures old(db.AlwaysSane() && Priceable(db.Cat(), m)) ==> db.AlwaysSane()
  {
    hide UpsertOutcome, Database.AlwaysSane;
    var odds := ParseOdds(cand.1);
    if odds.None? {
      return None;
    }
    var o := db.OutcomesUpsert(m, cand.0, odds.value);
    err := ErrorOf(o);
  }

  lemma UpsertsGoOn(c: Catalogue, m: nat, cands: seq<(OutcomeCode, Quote)>, i: nat, next: Catalogue)
    requires i < |cands| && Upserts(c, m, Quoted(cands[..i])) == Sync(next, None)
    ensures ParseOdds(cands[i].1).None? ==> Upserts(c, m, Quoted(cands[..i + 1])) == Sync(next, None)
    ensures ParseOdds(cands[i].1).Some? ==>
      match UpsertOutcome(next, m, cands[i].0, cands[i].1.value)
      case Err(error) => Upserts(c, m, Quoted(cands)) == Sync(next, Some(error))
      case Ok(more) => Upserts(c, m, Quoted(cands[..i + 1])) == Sync(more, None)
  {
    hide UpsertOutcome, Upserts, Quoted;
    QuotedStep(cands, i);
    if ParseOdds(cands[i].1).Some? {
      var quote := (cands[i].0, cands[i].1.value);
      assert OneQuoted(cands[i]) == [quote];
      UpsertsAppend(c, m, Quoted(cands[..i]), quote);
      if UpsertOutcome(next, m, quote.0, quote.1).Err? {
        UpsertsStop(c, m, cands, i + 1);
      }
    }
  }

  /** One more candidate: the upserts grow by its quote, or end here with the error. */
  method UpsertNext(db: Database, m: nat, cands: seq<(OutcomeCode, Quote)>, i: nat, ghost before: Catalogue)
    returns (err: Option<Error>)
    requires i < |cands| && Upserts(before, m, Quoted(cands[..i])) == Sync(db.Cat(), None)
    modifies db`outcomes, db`faults, db`sane
    ensures err.None? ==> Upserts(before, m, Quoted(cands[..i + 1])) == Sync(db.Cat(), None)
    ensures err.Some? ==> db.Cat() == old(db.Cat()) && Follows(Upserts(before, m, Quoted(cands)), db.Cat(), err)
    ensures db.Lost() == old(db.Lost()) - LossOf(err)
    ensures old(db.AlwaysSane() && Priceable(db.Cat(), m)) ==> db.AlwaysSane()
  {
    UpsertsGoOn(before, m, cands, i, db.Cat());
    hide UpsertOutcome, Upserts, Quoted, ParseOdds, Database.AlwaysSane;
    err := UpsertOne(db, m, cands[i]);
  }

  lemma StoredSoFar(c: Catalogue, m: nat, cands: seq<(OutcomeCode, Quote)>, i: nat, next: Catalogue)
    requires i <= |cands| && Upserts(c, m, Quoted(cands[..i])) == Sync(next, None)
    ensures UpsertsCut(c, m, Quoted(cands), next)
  {
    hide Upserts, Quoted;
    QuotedPrefix(cands, i);
  }

  /** Upsert the candidates with a usable price, in order. */
  method UpsertQuoted(db: Database, m: nat, cands: seq<(OutcomeCode, Quote)>) returns (err: Option<Error>)
    modifies db`outcomes, db`faults, db`sane
    ensures Follows(Upserts(old(db.Cat()), m, Quoted(cands)), db.Cat(), err)
    ensures UpsertsCut(old(db.Cat()), m, Quoted(cands), db.Cat())
    ensures db.Lost() == old(db.Lost()) - LossOf(err)
    ensures old(db.AlwaysSane() && Priceable(db.Cat(), m)) ==> db.AlwaysSane()
  {
    assert cands[..0] == [] && Upserts(db.Cat(), m, Quoted([])) == Sync(db.Cat(), None);
    hide Upserts, UpsertsCut, Quoted, Database.AlwaysSane;
    ghost var before := db.Cat();
    for i := 0 to |cands|
      invariant Upserts(before, m, Quoted(cands[..i])) == Sync(db.Cat(), None)
      invariant db.Lost() == old(db.Lost())
      invariant old(db.AlwaysSane() && Priceable(db.Cat(), m)) ==> db.AlwaysSane()
    {
      StoredSoFar(before, m, cands, i, db.Cat());
      err := UpsertNext(db, m, cands, i, before);
      if err.Some? {
        return;
      }
    }
    StoredSoFar(before, m, cands, |cands|, db.Cat());
    assert cands[..|cands|] == cands;
    err := None;
  }

  /** An outcome market without a line requirement, or one that has its line. */
  method OfferQuoted(db: Database, m: nat, cands: seq<(OutcomeCode, Quote)>) returns (err: Option<Error>)
    requires m < |db.markets|
    modifies db`markets, db`outcomes, db`faults, db`sane
    ensures Follows(Offer(old(db.Cat()), m, Quoted(cands)), db.Cat(), err)
    ensures err == Some(ErrConnection) ==> UpsertsCut(old(db.Cat()), m, Quoted(cands), db.Cat())
    ensures db.Lost() == old(db.Lost()) - LossOf(err)
    ensures old(db.AlwaysSane() && Priceable(db.Cat(), m)) ==> db.AlwaysSane()
  {
    hide Upserts, UpsertsCut, Database.AlwaysSane, Quoted;
    UpsertsKeepMarkets(db.Cat(), m, Quoted(cands));
    err := UpsertQuoted(db, m, cands);
    if err.None? {
      err := EnsureStatus(db, m, MarketOpen);
    }
  }

  method ApplyML(db: Database, m: nat, lines: seq<OddsLine>) returns (err: Option<Error>)
    requires m < |db.markets| && db.markets[m].kind == MarketML
    modifies db`markets, db`outcomes, db`faults, db`sane
    ensures Follows(OddsSync.ApplyML(old(db.Cat()), m, lines), db.Cat(), err)
    ensures MLCut(old(db.Cat()), m, lines, db.Cat())
    ensures db.Lost() == old(db.Lost()) - LossOf(err)
    ensures old(db.AlwaysSane()) ==> db.AlwaysSane()
  {
    hide Offer, UpsertsCut, Database.AlwaysSane, Quoted, MLQuotes, First;
    var line := PickMLLine(lines);
    if line.None? {
      err := EnsureStatus(db, m, MarketSuspended);
      return;
    }
    var l := line.value;
    QuotedML(l);
    err := OfferQuoted(db, m, [(OutcomeHome, l.home), (OutcomeDraw, l.draw), (OutcomeAway, l.away)]);
  }

  // ---------- the TOTALS market ----------

  lemma QuotedTotals(l: OddsLine)
    requires ValidTotals(l)
    ensures Quoted([(OutcomeOver, l.over), (OutcomeUnder, l.under)]) == TotalsQuotes(l)
  {
    var cands := [(OutcomeOver, l.over), (OutcomeUnder, l.under)];
    QuotedStep(cands, 0);
    QuotedStep(cands, 1);
    assert cands[..2] == cands;
  }

  /** The line is stored before the first outcome, so the market is never priced without a line. */
  method ApplyTotals(db: Database, m: nat, lines: seq<OddsLine>) returns (err: Option<Error>)
    requires m < |db.markets|
    modifies db`markets, db`outcomes, db`faults, db`sane
    ensures Follows(OddsSync.ApplyTotals(old(db.Cat()), m, lines), db.Cat(), err)
    ensures TotalsCut(old(db.Cat()), m, lines, db.Cat())
    ensures db.Lost() == old(db.Lost()) - LossOf(err)
    ensures old(db.AlwaysSane()) ==> db.AlwaysSane()
  {
    assert MainLine(lines).Some? ==> MainLine(lines).value < |lines|;
    hide Offer, UpsertsCut, Database.AlwaysSane, Quoted, TotalsQuotes, IsMainLine, Rounded;
    var line, over, under, ok := PickMainTotalsLine(lines);
    if !ok {
      err := EnsureStatus(db, m, MarketSuspended);
      return;
    }
    QuotedTotals(lines[MainLine(lines).value]);
    if !SameLine(db.markets[m].line, line) {
      err := db.MarketsUpdateLine(m, Some(line));
      if err.Some? {
        return;
      }
    }
    err := OfferQuoted(db, m, [(OutcomeOver, Some(over)), (OutcomeUnder, Some(under))]);
  }

  // ---------- applyEvent ----------

  /** findDBMarket over the event's markets. */
  method FindMarket(c: Catalogue, e: nat, kind: MarketType) returns (r: Option<nat>)
    ensures r == First(c.markets, MarketOfKind(e, kind))
  {
    var ids := MarketsOf(c, e);
    for i := 0 to |ids|
      invariant forall k :: 0 <= k < i ==> c.markets[ids[k]].kind != kind
    {
      if c.markets[ids[i]].kind == kind {
        FoundIsFirst(c, e, kind, i);
        return Some(ids[i]);
      }
    }
    NoneFound(c, e, kind);
    return None;
  }

  lemma FoundIsFirst(c: Catalogue, e: nat, kind: MarketType, i: nat)
    requires i < |MarketsOf(c, e)| && c.markets[MarketsOf(c, e)[i]].kind == kind
    requires forall k :: 0 <= k < i ==> c.markets[MarketsOf(c, e)[k]].kind != kind
    ensures First(c.markets, MarketOfKind(e, kind)) == Some(MarketsOf(c, e)[i])
  {
    var ids, hits := MarketsOf(c, e), Where(c.markets, MarketOfKind(e, kind));
    assert OfEvent(e)(c.markets[ids[i]]) && MarketOfKind(e, kind)(c.markets[ids[i]]);
    assert ids[i] in hits;
    assert MarketOfKind(e, kind)(c.markets[hits[0]]) && OfEvent(e)(c.markets[hits[0]]);
    var k :| 0 <= k < |ids| && ids[k] == hits[0];
  }

  lemma NoneFound(c: Catalogue, e: nat, kind: MarketType)
    requires forall k :: 0 <= k < |MarketsOf(c, e)| ==> c.markets[MarketsOf(c, e)[k]].kind != kind
    ensures First(c.markets, MarketOfKind(e, kind)) == None
  {
    var ids := MarketsOf(c, e);
    forall m: nat | m < |c.markets| ensures !MarketOfKind(e, kind)(c.markets[m]) {
      assert OfEvent(e)(c.markets[m]) ==> m in ids;
    }
    WhereNone(c.markets, MarketOfKind(e, kind));
  }

  method SyncSlot(db: Database, e: nat, slot: Option<nat>, kind: MarketType, quotes: seq<ApiMarket>) returns (err: Option<Error>)
    requires (kind == MarketML || kind == MarketTotals) && slot == First(db.markets, MarketOfKind(e, kind))
    modifies db`markets, db`outcomes, db`faults, db`sane
    ensures Follows(SyncMarket(old(db.Cat()), e, kind, quotes), db.Cat(), err)
    ensures SlotCut(old(db.Cat()), e, kind, quotes, db.Cat())
    ensures db.Lost() == old(db.Lost()) - LossOf(err)
    ensures old(db.AlwaysSane()) ==> db.AlwaysSane()
  {
    hide OddsSync.ApplyML, OddsSync.ApplyTotals, MLCut, TotalsCut, Database.AlwaysSane;
    if slot.None? {
      return None;
    }
    var m := slot.value;
    var api := First(quotes, OfKind(if kind == MarketML then ApiML else ApiTotals));
    if api.None? {
      err := EnsureStatus(db, m, MarketSuspended);
    } else if kind == MarketML {
      err := ApplyML(db, m, quotes[api.value].lines);
    } else {
      err := ApplyTotals(db, m, quotes[api.value].lines);
    }
  }

  /** One event of OddsSyncWorker.Run; quotes is None when the event or its bookmaker is absent. */
  method ApplyEvent(db: Database, e: nat, quotes: Option<seq<ApiMarket>>) returns (err: Option<Error>)
    modifies db`markets, db`outcomes, db`faults, db`sane
    ensures Follows(OddsSync.ApplyEvent(old(db.Cat()), e, quotes), db.Cat(), err)
    ensures EventCut(old(db.Cat()), e, quotes, db.Cat())
    ensures db.Lost() == old(db.Lost()) - LossOf(err)
    ensures old(db.AlwaysSane()) ==> db.AlwaysSane()
  {
    assert SlotCut(db.Cat(), e, MarketML, Offers(quotes), db.Cat());
    hide SyncMarket, SlotCut, Database.AlwaysSane, First;
    err := db.Send(); // markets.GetByEvent
    if err.Some? {
      return;
    }
    var ml := FindMarket(db.Cat(), e, MarketML);
    var totals := FindMarket(db.Cat(), e, MarketTotals);
    var offered := Offers(quotes);
    ghost var before := db.Cat();
    err := SyncSlot(db, e, ml, MarketML, offered);
    if err.Some? {
      return;
    }
    MLKeepsTotalsSlot(before, e, offered);
    err := SyncSlot(db, e, totals, MarketTotals, offered);
  }

  // ---------- the event feed ----------

  /** A prefix of the writes of one event: none, the event row, its ML market too, or all. */
  predicate SyncCut(c: Catalogue, api: ApiEvent, next: Catalogue) {
    var (upserted, e) := UpsertEvent(c, api);
    next == c || next == upserted || next == EnsureMarket(upserted, e, MarketML) || next == CatalogueOps.SyncEvent(c, api)
  }

  /** However far an interrupted attempt got, receiving the event again ends as if it had never been interrupted. */
  lemma SyncResumes(c: Catalogue, api: ApiEvent, next: Catalogue)
    requires SyncCut(c, api, next)
    ensures CatalogueOps.SyncEvent(next, api) == CatalogueOps.SyncEvent(c, api)
  {
    hide UpsertEvent;
    var (upserted, e) := UpsertEvent(c, api);
    var ml := EnsureMarket(upserted, e, MarketML);
    UpsertedAgain(c, api, upserted);
    UpsertedAgain(c, api, ml);
    UpsertedAgain(c, api, EnsureMarket(ml, e, MarketTotals));
    EnsuredAgain(upserted, e, MarketML);
    EnsuredAgain(ml, e, MarketTotals);
    OtherKindsStay(ml, e, MarketTotals, MarketML);
    hide HasKind;
  }

  /** The row of a repeated feed event is the one the first upsert wrote. */
  lemma FirstFeedRow(events: seq<Event>, externalId: int, row: Event, ids: seq<nat>, later: seq<Event>)
    requires ids == Where(events, Feed(externalId)) && Feed(externalId)(row)
    requires later == if ids == [] then events + [row] else events[ids[0] := row]
    ensures var now := Where(later, Feed(externalId)); now != [] && now[0] == if ids == [] then |events| else ids[0]
  {
    if ids == [] {
      WhereAppend(events, row, Feed(externalId));
    } else {
      assert Feed(externalId)(events[ids[0]]);
      WhereSame(events, later, Feed(externalId));
    }
  }

  lemma UpsertedAgain(c: Catalogue, api: ApiEvent, next: Catalogue)
    requires next.events == UpsertEvent(c, api).0.events
    ensures UpsertEvent(next, api) == (next, UpsertEvent(c, api).1)
  {
    var ids := Where(c.events, Feed(api.externalId));
    assert ids != [] ==> ids[0] < |c.events| && Feed(api.externalId)(c.events[ids[0]]);
    hide Where;
    var e := UpsertEvent(c, api).1;
    FirstFeedRow(c.events, api.externalId, next.events[e], ids, next.events);
    hide Feed;
    assert next.events[e := next.events[e]] == next.events;
  }

  lemma EnsuredAgain(c: Catalogue, e: nat, kind: MarketType)
    ensures HasKind(EnsureMarket(c, e, kind), e, kind)
    ensures EnsureMarket(EnsureMarket(c, e, kind), e, kind) == EnsureMarket(c, e, kind)
  {
    var next := EnsureMarket(c, e, kind);
    if !HasKind(c, e, kind) {
      assert next.markets[|c.markets|].eventId == e && next.markets[|c.markets|].kind == kind;
    }
  }

  /**
   * Upsert the event, then create the markets it lacks; what exists is left alone. created counts the new markets; a lost
   * statement leaves a prefix of the writes.
   */
  method SyncEvent(db: Database, api: ApiEvent) returns (created: nat, err: Option<Error>)
    modifies db`events, db`markets, db`faults, db`sane
    ensures err.None? ==> db.Cat() == CatalogueOps.SyncEvent(old(db.Cat()), api)
    ensures err.Some? ==> err.value == ErrConnection
    ensures SyncCut(old(db.Cat()), api, db.Cat()) && |db.markets| == |old(db.markets)| + created
    ensures db.Lost() == old(db.Lost()) - LossOf(err)
    ensures old(db.AlwaysSane()) ==> db.AlwaysSane()
  {
    UpsertedExists(db.Cat(), api);
    hide UpsertEvent, EnsureMarket, Database.AlwaysSane;
    var e := db.EventsUpsert(api);
    if e.Err? {
      return 0, Some(e.error);
    }
    created, err := EnsureMarkets(db, e.value);
  }

  lemma UpsertedExists(c: Catalogue, api: ApiEvent)
    ensures UpsertEvent(c, api).1 < |UpsertEvent(c, api).0.events|
    ensures UpsertEvent(c, api).0.markets == c.markets
  {
  }

  /** have[m.Type] = true over the event's markets. */
  method KindsPresent(c: Catalogue, e: nat) returns (have: set<MarketType>)
    ensures forall kind :: kind in have <==> HasKind(c, e, kind)
  {
    var existing := MarketsOf(c, e);
    have := {};
    for i := 0 to |existing|
      invariant forall kind :: kind in have <==> exists k :: 0 <= k < i && c.markets[existing[k]].kind == kind
    {
      have := have + {c.markets[existing[i]].kind};
    }
    forall kind ensures kind in have <==> HasKind(c, e, kind) {
      KindsOfEvent(c, e, kind);
    }
  }

  method EnsureOne(db: Database, e: nat, kind: MarketType, present: bool) returns (created: nat, err: Option<Error>)
    requires e < |db.events| && present == HasKind(db.Cat(), e, kind)
    modifies db`markets, db`faults, db`sane
    ensures err.None? ==> db.Cat() == EnsureMarket(old(db.Cat()), e, kind)
    ensures err.Some? ==> err.value == ErrConnection && db.Cat() == old(db.Cat())
    ensures |db.markets| == |old(db.markets)| + created
    ensures db.Lost() == old(db.Lost()) - LossOf(err)
    ensures old(db.AlwaysSane()) ==> db.AlwaysSane()
  {
    hide Database.AlwaysSane, HasKind;
    if present {
      return 0, None;
    }
    var m := db.MarketsCreateForEvent(e, kind, None);
    if m.Err? {
      return 0, Some(m.error);
    }
    return 1, None;
  }

  lemma OtherKindsStay(c: Catalogue, e: nat, kind: MarketType, other: MarketType)
    requires kind != other
    ensures HasKind(EnsureMarket(c, e, kind), e, other) <==> HasKind(c, e, other)
  {
    var next := EnsureMarket(c, e, kind);
    if m :| 0 <= m < |c.markets| && c.markets[m].eventId == e && c.markets[m].kind == other {
      assert next.markets[m] == c.markets[m];
    }
  }

  /** ensureMarkets: the number of markets created, also when a statement is lost after the first one. */
  method EnsureMarkets(db: Database, e: nat) returns (created: nat, err: Option<Error>)
    requires e < |db.events|
    modifies db`markets, db`faults, db`sane
    ensures err.None? ==> db.Cat() == EnsureMarket(EnsureMarket(old(db.Cat()), e, MarketML), e, MarketTotals)
    ensures err.Some? ==>
      err.value == ErrConnection && (db.Cat() == old(db.Cat()) || db.Cat() == EnsureMarket(old(db.Cat()), e, MarketML))
    ensures |db.markets| == |old(db.markets)| + created
    ensures db.Lost() == old(db.Lost()) - LossOf(err)
    ensures old(db.AlwaysSane()) ==> db.AlwaysSane()
  {
    hide Database.AlwaysSane, EnsureMarket, HasKind;
    err := db.Send(); // markets.GetByEvent
    created := 0;
    if err.Some? {
      return;
    }
    var have := KindsPresent(db.Cat(), e);
    OtherKindsStay(db.Cat(), e, MarketML, MarketTotals);
    created, err := EnsureOne(db, e, MarketML, MarketML in have);
    if err.Some? {
      return;
    }
    var more;
    more, err := EnsureOne(db, e, MarketTotals, MarketTotals in have);
    created := created + more;
  }

  lemma KindsOfEvent(c: Catalogue, e: nat, kind: MarketType)
    ensures HasKind(c, e, kind) <==> exists k :: 0 <= k < |MarketsOf(c, e)| && c.markets[MarketsOf(c, e)[k]].kind == kind
  {
    var ids := MarketsOf(c, e);
    if HasKind(c, e, kind) {
      var m :| 0 <= m < |c.markets| && c.markets[m].eventId == e && c.markets[m].kind == kind;
      assert OfEvent(e)(c.markets[m]) && m in ids;
    }
    if k :| 0 <= k < |ids| && c.markets[ids[k]].kind == kind {
      assert OfEvent(e)(c.markets[ids[k]]);
    }
  }
}
