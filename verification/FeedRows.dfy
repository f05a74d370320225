/** What a message of the event feed writes, and who may move the start of a fixture. */
module FeedRows {
  import opened Sums
  import opened Domain
  import opened BankOps
  import opened Plans
  import opened CatalogueOps
  import opened Settlement
  import opened Lifecycle
  import opened Service
  import Ledger
  import OddsSync
  import Runs

  /** The row of a fixture of the feed. */
  predicate IsFixture(ev: Event, id: int) {
    ev.source == SourceOddsAPI && ev.externalId == Some(id)
  }

  // ---------- one message ----------

  /**
   * The message's row: start and status are the message's, so is the score if it has one, and a stored score survives a
   * message without one. It is the row the fixture had, or a new one if it had none; every other event is as it was.
   */
  predicate Rewritten(c: Catalogue, next: Catalogue, api: ApiEvent, e: nat) {
    && e < |next.events| && IsFixture(next.events[e], api.externalId)
    && next.events[e].startsAt == api.startsAt && next.events[e].status == api.status
    && next.events[e].scores == (if api.scores != NoScores then api.scores else if e < |c.events| then c.events[e].scores else NoScores)
    && |next.events| == (if e < |c.events| then |c.events| else |c.events| + 1)
    && (if e < |c.events| then IsFixture(c.events[e], api.externalId)
        else e == |c.events| && forall i :: 0 <= i < |c.events| ==> !IsFixture(c.events[i], api.externalId))
    && (forall i :: 0 <= i < |c.events| && i != e ==> next.events[i] == c.events[i])
  }

  /** The event has exactly the markets it had and an open, unlined one of each kind it lacked. */
  predicate Furnished(c: Catalogue, next: Catalogue, e: nat) {
    && |c.markets| <= |next.markets| && next.markets[..|c.markets|] == c.markets && next.outcomes == c.outcomes
    && (forall m :: |c.markets| <= m < |next.markets| ==>
          next.markets[m] == Market(e, MarketML, None, MarketOpen) || next.markets[m] == Market(e, MarketTotals, None, MarketOpen))
    && (forall m, k :: |c.markets| <= m < |next.markets| && 0 <= k < m ==>
          next.markets[k].eventId != e || next.markets[k].kind != next.markets[m].kind)
  }

  ghost predicate Offers(c: Catalogue, e: nat, kind: MarketType) {
    exists m :: 0 <= m < |c.markets| && c.markets[m].eventId == e && c.markets[m].kind == kind
  }

  lemma UpsertRewrites(c: Catalogue, api: ApiEvent)
    ensures var (next, e) := UpsertEvent(c, api);
      Rewritten(c, next, api, e) && next.markets == c.markets && next.outcomes == c.outcomes
  {
    var ids := Where(c.events, Feed(api.externalId));
    if ids == [] {
      forall i | 0 <= i < |c.events| ensures !IsFixture(c.events[i], api.externalId) {
        assert Feed(api.externalId)(c.events[i]) ==> i in ids;
      }
    } else {
      assert Feed(api.externalId)(c.events[ids[0]]);
    }
  }

  lemma EnsureFurnishes(c: Catalogue, e: nat)
    ensures var next := EnsureMarket(EnsureMarket(c, e, MarketML), e, MarketTotals);
      && next.events == c.events && Furnished(c, next, e) && Offers(next, e, MarketML) && Offers(next, e, MarketTotals)
  {
    var one := EnsureMarket(c, e, MarketML);
    var next := EnsureMarket(one, e, MarketTotals);
    EnsureOffers(c, e, MarketML);
    EnsureOffers(one, e, MarketTotals);
    EnsureKeepsOffer(one, e, MarketTotals, MarketML);
  }

  lemma EnsureOffers(c: Catalogue, e: nat, kind: MarketType)
    ensures Offers(EnsureMarket(c, e, kind), e, kind)
  {
    var next := EnsureMarket(c, e, kind);
    if HasKind(c, e, kind) {
      var m :| 0 <= m < |c.markets| && c.markets[m].eventId == e && c.markets[m].kind == kind;
      assert next.markets[m] == c.markets[m];
    } else {
      assert next.markets[|c.markets|].kind == kind;
    }
  }

  lemma EnsureKeepsOffer(c: Catalogue, e: nat, kind: MarketType, other: MarketType)
    requires Offers(c, e, other)
    ensures Offers(EnsureMarket(c, e, kind), e, other)
  {
    var m :| 0 <= m < |c.markets| && c.markets[m].eventId == e && c.markets[m].kind == other;
    assert EnsureMarket(c, e, kind).markets[m] == c.markets[m];
  }

  /** A feed message rewrites its fixture's row, furnishes it with its two markets, and touches nothing else. */
  lemma MessageWrites(c: Catalogue, api: ApiEvent) returns (e: nat)
    ensures var next := SyncEvent(c, api);
      Rewritten(c, next, api, e) && Furnished(c, next, e) && Offers(next, e, MarketML) && Offers(next, e, MarketTotals)
  {
    hide UpsertEvent, EnsureMarket;
    UpsertRewrites(c, api);
    var (next, at) := UpsertEvent(c, api);
    e := at;
    EnsureFurnishes(next, e);
  }

  // ---------- over a run ----------

  /** A message of the feed for this fixture. */
  predicate Announces(op: Op, id: int) {
    op.FeedEvent? && op.api.externalId == id
  }

  /** Every event keeps its source and external id, and a fixture its start unless the call is a message for it. */
  predicate Kept(before: Event, now: Event, op: Op) {
    && now.source == before.source && now.externalId == before.externalId
    && (before.source == SourceOddsAPI && (before.externalId.Some? ==> !Announces(op, before.externalId.value)) ==>
          now.startsAt == before.startsAt)
  }

  /** A new fixture comes from a message, and was not there before. */
  predicate Fresh(c: Catalogue, now: Event, op: Op) {
    now.source == SourceOddsAPI ==>
      op.FeedEvent? && now.externalId == Some(op.api.externalId)
      && forall i :: 0 <= i < |c.events| ==> !IsFixture(c.events[i], op.api.externalId)
  }

  ghost predicate EventsFollow(c: Catalogue, next: Catalogue, op: Op) {
    && |c.events| <= |next.events| <= |c.events| + 1
    && (forall i :: 0 <= i < |c.events| ==> Kept(c.events[i], next.events[i], op))
    && (|next.events| == |c.events| + 1 ==> Fresh(c, next.events[|c.events|], op))
  }

  lemma SameEventsFollow(c: Catalogue, next: Catalogue, op: Op)
    requires next.events == c.events
    ensures EventsFollow(c, next, op)
  {
  }

  lemma CatalogueEventsFollow(c: Catalogue, op: Op)
    requires Sane(c) && CatalogueOnly(op) && StepCatalogue(c, op).Ok?
    ensures EventsFollow(c, StepCatalogue(c, op).value, op)
  {
    hide Sane, AddMarkets, AddMarket, EditOutcomes, OddsSync.ApplyEvent, SyncEvent;
    match op
    case NewMatch(_, input) =>
      AddMarketsKeepEvents(InsertEvent(c, SourceManual, None, input.startsAt.value, EventUpcoming, NoScores),
                           |c.events|, input.markets);
    case NewCustom(input) =>
      AddMarketKeepsEvents(InsertEvent(c, SourceCustom, None, input.startsAt.value, EventUpcoming, NoScores),
                           |c.events|, CustomMarket(input));
    case EditCustom(e, _, startsAt, edits) =>
      Runs.EditOutcomesKeepRows(c.(events := c.events[e := Runs.MovedTo(c.events[e], startsAt)]), edits);
    case EditMatch(e, _, _, startsAt, edits) =>
      Runs.EditOutcomesKeepRows(c.(events := c.events[e := Runs.MovedTo(c.events[e], startsAt)]), edits);
    case GoLive(e, status) =>
    case FeedEvent(api) =>
      var e := MessageWrites(c, api);
    case FeedOdds(e, quotes) =>
      ApplyEventEvolves(c, e, quotes);
  }

  lemma StepEventsFollow(db: Db, cfg: Config, op: Op)
    requires Runs.Inv(db, cfg)
    ensures EventsFollow(db.cat, Exec(db, cfg, op).cat, op)
  {
    hide Sane, InStep, Ledger.BankInv, Runs.BetsFit, Settle, CloseOf, StepCatalogue, PlaceBet, AdjustBalance, LoginOrRegister,
      BankOps.Register, EventsFollow, Closed;
    SameEventsFollow(db.cat, db.cat, op);
    if Step(db, cfg, op).Ok? {
      if Closing(op) {
        Runs.CloseIsSound(db.cat, op);
        Runs.CloseSettles(db, cfg, CloseOf(db.cat, op).value);
        CloseEventsFollow(db.cat, CloseOf(db.cat, op).value, op);
      } else if CatalogueOnly(op) {
        CatalogueEventsFollow(db.cat, op);
      } else if op.Place? {
        Runs.PlaceIsLater(db, cfg, op.now, op.user, op.outcome, op.stake);
      }
    }
  }

  lemma CloseEventsFollow(c: Catalogue, close: Close, op: Op)
    requires close.e < |c.events|
    ensures EventsFollow(c, Closed(c, close.e, close.final, close.d, close.scores), op)
  {
    hide OutcomeVerdict, MarketVerdict;
  }

  /** No fixture has two rows. */
  ghost predicate OneRowPerFixture(c: Catalogue) {
    forall i, j :: 0 <= i < j < |c.events| && c.events[i].source == c.events[j].source == SourceOddsAPI ==>
      c.events[i].externalId != c.events[j].externalId
  }

  lemma FollowKeepsOneRow(c: Catalogue, next: Catalogue, op: Op)
    requires OneRowPerFixture(c) && EventsFollow(c, next, op)
    ensures OneRowPerFixture(next)
  {
    forall i, j | 0 <= i < j < |next.events| && next.events[i].source == next.events[j].source == SourceOddsAPI
      ensures next.events[i].externalId != next.events[j].externalId
    {
      assert Kept(c.events[i], next.events[i], op);
      if j < |c.events| {
        assert Kept(c.events[j], next.events[j], op);
      } else {
        assert Fresh(c, next.events[j], op);
      }
    }
  }

  lemma {:induction false} RunKeepsOneRow(db: Db, cfg: Config, ops: seq<Op>)
    requires Runs.Inv(db, cfg) && OneRowPerFixture(db.cat)
    ensures OneRowPerFixture(Run(db, cfg, ops).cat)
    decreases |ops|
  {
    hide Runs.Inv, Exec, OneRowPerFixture, EventsFollow;
    if |ops| > 0 {
      StepEventsFollow(db, cfg, ops[0]);
      FollowKeepsOneRow(db.cat, Exec(db, cfg, ops[0]).cat, ops[0]);
      Runs.StepKeepsInv(db, cfg, ops[0]);
      RunKeepsOneRow(Exec(db, cfg, ops[0]), cfg, ops[1..]);
    }
  }

  /** However often the feed announces a fixture, every reachable database has one row for it. */
  lemma OneEventPerFixture(cfg: Config, ops: seq<Op>, i: nat, j: nat, id: int)
    requires var events := Run(EMPTY, cfg, ops).cat.events;
      i < |events| && j < |events| && IsFixture(events[i], id) && IsFixture(events[j], id)
    ensures i == j
  {
    Runs.EmptyIsInv(cfg);
    RunKeepsOneRow(EMPTY, cfg, ops);
    hide Run, Runs.Inv;
  }

  /** Without a message for it, a fixture keeps its start over any run. */
  lemma {:induction false} RunKeepsStart(db: Db, cfg: Config, ops: seq<Op>, e: nat, id: int)
    requires Runs.Inv(db, cfg) && e < |db.cat.events| && IsFixture(db.cat.events[e], id)
    requires forall i :: 0 <= i < |ops| ==> !Announces(ops[i], id)
    ensures var events := Run(db, cfg, ops).cat.events;
      e < |events| && IsFixture(events[e], id) && events[e].startsAt == db.cat.events[e].startsAt
    decreases |ops|
  {
    hide Runs.Inv, Exec;
    if |ops| > 0 {
      StepEventsFollow(db, cfg, ops[0]);
      assert Kept(db.cat.events[e], Exec(db, cfg, ops[0]).cat.events[e], ops[0]);
      Runs.StepKeepsInv(db, cfg, ops[0]);
      RunKeepsStart(Exec(db, cfg, ops[0]), cfg, ops[1..], e, id);
    }
  }

  /**
   * From the start a message announces on, whatever happens but another message for the fixture, no bet on it is accepted.
   */
  lemma KickOffClosesBetting(db: Db, cfg: Config, api: ApiEvent, ops: seq<Op>, now: int, u: nat, o: nat, stake: int) returns (e: nat)
    requires Runs.Inv(db, cfg) && api.startsAt <= now && forall i :: 0 <= i < |ops| ==> !Announces(ops[i], api.externalId)
    ensures Rewritten(db.cat, Exec(db, cfg, FeedEvent(api)).cat, api, e)
    ensures var later := Run(Exec(db, cfg, FeedEvent(api)), cfg, ops);
      && e < |later.cat.events| && later.cat.events[e].startsAt == api.startsAt
      && (Affects(later.cat, e, o) ==> PlaceBet(later, cfg, now, u, o, stake).Err?)
  {
    e := MessageWrites(db.cat, api);
    var next := Exec(db, cfg, FeedEvent(api));
    assert next.cat == SyncEvent(db.cat, api) by {
      hide SyncEvent;
    }
    Runs.StepKeepsInv(db, cfg, FeedEvent(api));
    hide Runs.Inv, Exec, Run, SyncEvent, PlaceBet;
    RunKeepsStart(next, cfg, ops, e, api.externalId);
    var later := Run(next, cfg, ops);
    PlaceBetExactly(later, cfg, now, u, o, stake);
  }
}
