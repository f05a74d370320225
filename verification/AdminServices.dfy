/** AdminService and the settlement worker: every call carries out one atomic step of Service, or changes nothing. */
module AdminServices {
  import opened Sums
  import opened Domain
  import opened Plans
  import opened CatalogueOps
  import Settlement
  import Service
  import SettlementService
  import opened Store
  import opened MoneyServices

  // ---------- validation ----------

  method ValidateMatchMarket(mk: MarketInput) returns (ok: bool)
    ensures ok == ValidMatchMarket(mk)
  {
    if mk.kind == MarketCustom || (mk.kind == MarketTotals && mk.line.None?) || |mk.outcomes| == 0 {
      return false;
    }
    for j := 0 to |mk.outcomes|
      invariant forall i :: 0 <= i < j ==>
        mk.outcomes[i].text != "" && mk.outcomes[i].odds > 1.0 && IsValidMatchOutcomeCode(mk.kind, mk.outcomes[i].code)
    {
      var oc := mk.outcomes[j];
      if oc.text == "" || oc.odds <= 1.0 || !IsValidMatchOutcomeCode(mk.kind, oc.code) {
        return false;
      }
    }
    return true;
  }

  /** Every market must be valid and one of them must be ML. */
  method ValidateCreateMatch(input: MatchInput) returns (ok: bool)
    ensures ok == ValidMatch(input)
  {
    if input.title == "" || input.startsAt.None? || input.home == "" || input.away == "" || |input.markets| == 0 {
      return false;
    }
    var hasML := false;
    for i := 0 to |input.markets|
      invariant forall k :: 0 <= k < i ==> ValidMatchMarket(input.markets[k])
      invariant hasML <==> exists k :: 0 <= k < i && input.markets[k].kind == MarketML
    {
      ok := ValidateMatchMarket(input.markets[i]);
      if !ok {
        return;
      }
      if input.markets[i].kind == MarketML {
        hasML := true;
      }
    }
    return hasML;
  }

  method ValidateCreate(input: CustomInput) returns (ok: bool)
    ensures ok == ValidCustom(input)
  {
    if input.title == "" || input.startsAt.None? || |input.outcomes| < MIN_CUSTOM_OUTCOMES {
      return false;
    }
    for i := 0 to |input.outcomes|
      invariant forall k :: 0 <= k < i ==>
        && input.outcomes[k].text.Some? && input.outcomes[k].text.value != ""
        && input.outcomes[k].odds.Some? && input.outcomes[k].odds.value > 1.0
    {
      var oc := input.outcomes[i];
      if oc.text.None? || oc.text.value == "" || oc.odds.None? || oc.odds.value <= 1.0 {
        return false;
      }
    }
    return true;
  }

  method ValidateEdits(edits: seq<OutcomeEdit>) returns (ok: bool)
    ensures ok == ValidEdits(edits)
  {
    for i := 0 to |edits|
      invariant forall k :: 0 <= k < i && edits[k].odds.Some? ==> edits[k].odds.value > 1.0
    {
      if edits[i].odds.Some? && edits[i].odds.value <= 1.0 {
        return false;
      }
    }
    return true;
  }

  // ---------- creating ----------

  lemma {:induction false} AddOutcomesStops(c: Catalogue, m: nat, outcomes: seq<OutcomeInput>, k: nat)
    requires k <= |outcomes| && AddOutcomes(c, m, outcomes[..k]).Err?
    ensures AddOutcomes(c, m, outcomes) == AddOutcomes(c, m, outcomes[..k])
    decreases |outcomes| - k
  {
    hide UpsertOutcome;
    if k < |outcomes| {
      assert outcomes[..k + 1][..k] == outcomes[..k];
      AddOutcomesStops(c, m, outcomes, k + 1);
    } else {
      assert outcomes[..k] == outcomes;
    }
  }

  lemma {:induction false} AddMarketsStops(c: Catalogue, e: nat, markets: seq<MarketInput>, k: nat)
    requires k <= |markets| && AddMarkets(c, e, markets[..k]).Err?
    ensures AddMarkets(c, e, markets) == AddMarkets(c, e, markets[..k])
    decreases |markets| - k
  {
    hide AddMarket;
    if k < |markets| {
      assert markets[..k + 1][..k] == markets[..k];
      AddMarketsStops(c, e, markets, k + 1);
    } else {
      assert markets[..k] == markets;
    }
  }

  /** No write moves an outcome to another market or code. */
  ghost predicate KeysStay(c: Catalogue, next: Catalogue) {
    |c.outcomes| <= |next.outcomes|
    && forall o :: 0 <= o < |c.outcomes| ==>
         next.outcomes[o].marketId == c.outcomes[o].marketId && next.outcomes[o].code == c.outcomes[o].code
  }

  /** The ids name, input by input, the rows that market m has for the requested codes. */
  ghost predicate NamesRows(c: Catalogue, m: nat, outcomes: seq<OutcomeInput>, ids: seq<nat>) {
    |ids| == |outcomes|
    && forall j :: 0 <= j < |ids| ==> ids[j] < |c.outcomes| && Keyed(m, outcomes[j].code)(c.outcomes[ids[j]])
  }

  /** The same over several markets with consecutive ids from first on. */
  ghost predicate NamesAll(c: Catalogue, first: nat, markets: seq<MarketInput>, ids: seq<nat>) {
    if |markets| == 0 then ids == []
    else
      var last := |markets| - 1;
      var n := |ids| - |markets[last].outcomes|;
      n >= 0 && NamesAll(c, first, markets[..last], ids[..n]) && NamesRows(c, first + last, markets[last].outcomes, ids[n..])
  }

  lemma {:induction false} NamesStay(c: Catalogue, next: Catalogue, first: nat, markets: seq<MarketInput>, ids: seq<nat>)
    requires KeysStay(c, next) && NamesAll(c, first, markets, ids)
    ensures NamesAll(next, first, markets, ids)
  {
    if |markets| > 0 {
      var last := |markets| - 1;
      NamesStay(c, next, first, markets[..last], ids[..|ids| - |markets[last].outcomes|]);
    }
  }

  lemma UpsertKeysStay(c: Catalogue, m: nat, code: OutcomeCode, odds: real)
    requires UpsertOutcome(c, m, code, odds).Ok?
    ensures KeysStay(c, UpsertOutcome(c, m, code, odds).value)
    ensures UpsertOutcome(c, m, code, odds).value.markets == c.markets
  {
    hide Rounded;
  }

  lemma NamesNone(c: Catalogue, m: nat)
    ensures NamesRows(c, m, [], []) && KeysStay(c, c)
  {
  }

  lemma NamesOneMore(c: Catalogue, next: Catalogue, m: nat, outcomes: seq<OutcomeInput>, i: nat, ids: seq<nat>, o: nat)
    requires i < |outcomes| && NamesRows(c, m, outcomes[..i], ids) && KeysStay(c, next)
    requires o < |next.outcomes| && Keyed(m, outcomes[i].code)(next.outcomes[o])
    ensures NamesRows(next, m, outcomes[..i + 1], ids + [o])
  {
  }

  method AddOutcomesInTx(db: Database, m: nat, outcomes: seq<OutcomeInput>) returns (r: Try<seq<nat>>)
    modifies db`outcomes, db`faults, db`sane
    ensures Performs(AddOutcomes(old(db.Cat()), m, outcomes), db.Cat(), ErrorOf(r))
    ensures r.Ok? ==> NamesRows(db.Cat(), m, outcomes, r.value) && KeysStay(old(db.Cat()), db.Cat())
    ensures db.Lost() == old(db.Lost()) - LossOf(ErrorOf(r))
    ensures old(db.AlwaysSane() && Priceable(db.Cat(), m)) ==> db.AlwaysSane()
  {
    hide UpsertOutcome, Database.AlwaysSane, NamesRows;
    ghost var before := db.Cat();
    var ids: seq<nat> := [];
    NamesNone(before, m);
    assert outcomes[..0] == [];
    for i := 0 to |outcomes|
      invariant AddOutcomes(before, m, outcomes[..i]) == Ok(db.Cat())
      invariant NamesRows(db.Cat(), m, outcomes[..i], ids) && KeysStay(before, db.Cat())
      invariant db.Lost() == old(db.Lost())
      invariant old(db.AlwaysSane() && Priceable(db.Cat(), m)) ==> db.AlwaysSane()
    {
      assert outcomes[..i + 1][..i] == outcomes[..i];
      ghost var was := db.Cat();
      var o := db.OutcomesUpsert(m, outcomes[i].code, outcomes[i].odds);
      if o.Err? {
        if AddOutcomes(before, m, outcomes[..i + 1]).Err? {
          AddOutcomesStops(before, m, outcomes, i + 1);
        }
        return Err(o.error);
      }
      UpsertKeysStay(was, m, outcomes[i].code, outcomes[i].odds);
      NamesOneMore(was, db.Cat(), m, outcomes, i, ids, o.value);
      ids := ids + [o.value];
    }
    assert outcomes[..|outcomes|] == outcomes;
    return Ok(ids);
  }

  /** createMatchMarket: the new market's id and its outcomes' ids. */
  method AddMarketInTx(db: Database, e: nat, mk: MarketInput) returns (r: Try<(nat, seq<nat>)>)
    modifies db`markets, db`outcomes, db`faults, db`sane
    ensures Performs(AddMarket(old(db.Cat()), e, mk), db.Cat(), ErrorOf(r))
    ensures r.Ok? ==> r.value.0 == |old(db.markets)| && |db.markets| == |old(db.markets)| + 1
    ensures r.Ok? ==> NamesRows(db.Cat(), r.value.0, mk.outcomes, r.value.1) && KeysStay(old(db.Cat()), db.Cat())
    ensures db.Lost() == old(db.Lost()) - LossOf(ErrorOf(r))
    ensures Lined(mk) && old(db.AlwaysSane()) ==> db.AlwaysSane()
  {
    hide AddOutcomes, Database.AlwaysSane, Rounded, NamesRows;
    var m := db.MarketsCreateForEvent(e, mk.kind, mk.line);
    if m.Err? {
      return Err(m.error);
    }
    var ids := AddOutcomesInTx(db, m.value, mk.outcomes);
    return if ids.Err? then Err(ids.error) else Ok((m.value, ids.value));
  }

  method AddMarketsInTx(db: Database, e: nat, markets: seq<MarketInput>) returns (r: Try<seq<nat>>)
    modifies db`markets, db`outcomes, db`faults, db`sane
    ensures Performs(AddMarkets(old(db.Cat()), e, markets), db.Cat(), ErrorOf(r))
    ensures r.Ok? ==> NamesAll(db.Cat(), |old(db.markets)|, markets, r.value)
    ensures db.Lost() == old(db.Lost()) - LossOf(ErrorOf(r))
    ensures (forall i :: 0 <= i < |markets| ==> Lined(markets[i])) && old(db.AlwaysSane()) ==> db.AlwaysSane()
  {
    hide AddMarket, Database.AlwaysSane, NamesRows, KeysStay;
    ghost var before := db.Cat();
    var ids: seq<nat> := [];
    for i := 0 to |markets|
      invariant AddMarkets(before, e, markets[..i]) == Ok(db.Cat())
      invariant |db.markets| == |before.markets| + i && NamesAll(db.Cat(), |before.markets|, markets[..i], ids)
      invariant db.Lost() == old(db.Lost())
      invariant (forall i :: 0 <= i < |markets| ==> Lined(markets[i])) && old(db.AlwaysSane()) ==> db.AlwaysSane()
    {
      assert markets[..i + 1][..i] == markets[..i];
      ghost var was := db.Cat();
      var added := AddMarketInTx(db, e, markets[i]);
      if added.Err? {
        if AddMarkets(before, e, markets[..i + 1]).Err? {
          AddMarketsStops(before, e, markets, i + 1);
        }
        return Err(added.error);
      }
      NamesStay(was, db.Cat(), |before.markets|, markets[..i], ids);
      NamesMore(db.Cat(), |before.markets|, markets, i, ids, added.value.1);
      ids := ids + added.value.1;
    }
    assert markets[..|markets|] == markets;
    return Ok(ids);
  }

  lemma NamesMore(c: Catalogue, first: nat, markets: seq<MarketInput>, i: nat, ids: seq<nat>, more: seq<nat>)
    requires i < |markets| && NamesAll(c, first, markets[..i], ids) && NamesRows(c, first + i, markets[i].outcomes, more)
    ensures NamesAll(c, first, markets[..i + 1], ids + more)
  {
    var n := |ids + more| - |markets[i].outcomes|;
    assert |more| == |markets[i].outcomes|;
    assert markets[..i + 1][..i] == markets[..i] && (ids + more)[..n] == ids && (ids + more)[n..] == more;
  }

  /** CreatedEvent: the new event, its first market and all its outcomes, in the order of the input. */
  datatype Created = Created(event: nat, market: nat, outcomes: seq<nat>)

  ghost predicate IsCreated(before: Catalogue, after: Catalogue, markets: seq<MarketInput>, created: Created) {
    && created.event == |before.events| && created.market == |before.markets|
    && NamesAll(after, |before.markets|, markets, created.outcomes)
  }

  /** The event with all its markets and outcomes, or nothing; sane after every single insert. */
  method CreateMatch(db: Database, leagueFound: bool, input: MatchInput) returns (r: Try<Created>)
    modifies db
    ensures Concludes(CatalogueOps.CreateMatch(old(db.Cat()), leagueFound, input), old(db.Cat()), db.Cat(), ErrorOf(r))
    ensures r.Ok? ==> IsCreated(old(db.Cat()), db.Cat(), input.markets, r.value)
    ensures db.Lost() == old(db.Lost()) - LossOf(ErrorOf(r))
    ensures db.Money() == old(db.Money())
    ensures old(db.AlwaysSane()) ==> db.AlwaysSane()
  {
    hide AddMarkets, Sane, ValidMatch, NamesAll;
    var err := db.Send(); // leagues.GetByID
    if err.Some? {
      return Err(err.value);
    }
    if !leagueFound {
      return Err(ErrNotFound);
    }
    var ok := ValidateCreateMatch(input);
    if !ok {
      return Err(ErrBetOutOfRange);
    }
    err := db.Begin();
    if err.Some? {
      return Err(err.value);
    }
    r := CreateMatchInTx(db, input);
    err := db.End(ErrorOf(r));
    if err.Some? {
      return Err(err.value);
    }
  }

  method CreateMatchInTx(db: Database, input: MatchInput) returns (r: Try<Created>)
    requires ValidMatch(input)
    modifies db`events, db`markets, db`outcomes, db`faults, db`sane
    ensures Performs(CatalogueOps.CreateMatch(old(db.Cat()), true, input), db.Cat(), ErrorOf(r))
    ensures r.Ok? ==> IsCreated(old(db.Cat()), db.Cat(), input.markets, r.value)
    ensures db.Lost() == old(db.Lost()) - LossOf(ErrorOf(r))
    ensures old(db.AlwaysSane()) ==> db.AlwaysSane()
  {
    hide AddMarkets, Database.AlwaysSane, NamesAll;
    assert forall i :: 0 <= i < |input.markets| ==> ValidMatchMarket(input.markets[i]) && Lined(input.markets[i]);
    var market := |db.markets|;
    var e := db.EventsCreate(SourceManual, None, input.startsAt.value, EventUpcoming, NoScores);
    if e.Err? {
      return Err(e.error);
    }
    var ids := AddMarketsInTx(db, e.value, input.markets);
    return if ids.Err? then Err(ids.error) else Ok(Created(e.value, market, ids.value));
  }

  method CreateCustomEvent(db: Database, input: CustomInput) returns (r: Try<Created>)
    modifies db
    ensures Concludes(CatalogueOps.CreateCustomEvent(old(db.Cat()), input), old(db.Cat()), db.Cat(), ErrorOf(r))
    ensures r.Ok? ==> ValidCustom(input) && IsCreated(old(db.Cat()), db.Cat(), [CustomMarket(input)], r.value)
    ensures db.Lost() == old(db.Lost()) - LossOf(ErrorOf(r))
    ensures db.Money() == old(db.Money())
    ensures old(db.AlwaysSane()) ==> db.AlwaysSane()
  {
    hide AddMarket, Sane, ValidCustom, NamesAll;
    var ok := ValidateCreate(input);
    if !ok {
      return Err(ErrBetOutOfRange);
    }
    var err := db.Begin();
    if err.Some? {
      return Err(err.value);
    }
    r := CreateCustomInTx(db, input);
    err := db.End(ErrorOf(r));
    if err.Some? {
      return Err(err.value);
    }
  }

  lemma NamesOneMarket(c: Catalogue, m: nat, mk: MarketInput, ids: seq<nat>)
    requires NamesRows(c, m, mk.outcomes, ids)
    ensures NamesAll(c, m, [mk], ids)
  {
    hide NamesRows;
    assert [mk][..0] == [] && [mk][..1] == [mk] && [] + ids == ids;
    assert NamesAll(c, m, [mk][..0], []);
    NamesMore(c, m, [mk], 0, [], ids);
  }

  method CreateCustomInTx(db: Database, input: CustomInput) returns (r: Try<Created>)
    requires ValidCustom(input)
    modifies db`events, db`markets, db`outcomes, db`faults, db`sane
    ensures Performs(CatalogueOps.CreateCustomEvent(old(db.Cat()), input), db.Cat(), ErrorOf(r))
    ensures r.Ok? ==> IsCreated(old(db.Cat()), db.Cat(), [CustomMarket(input)], r.value)
    ensures db.Lost() == old(db.Lost()) - LossOf(ErrorOf(r))
    ensures old(db.AlwaysSane()) ==> db.AlwaysSane()
  {
    assert input.startsAt.Some?;
    hide AddMarket, Database.AlwaysSane, NamesRows, NamesAll, KeysStay, ValidCustom, CustomOutcomes;
    ghost var first := |db.markets|;
    var e := db.EventsCreate(SourceCustom, None, input.startsAt.value, EventUpcoming, NoScores);
    if e.Err? {
      return Err(e.error);
    }
    var mk := CustomMarket(input);
    var added := AddMarketInTx(db, e.value, mk);
    if added.Err? {
      return Err(added.error);
    }
    NamesOneMarket(db.Cat(), first, mk, added.value.1);
    return Ok(Created(e.value, added.value.0, added.value.1));
  }

  // ---------- editing ----------

  lemma {:induction false} EditOutcomesStops(c: Catalogue, edits: seq<OutcomeEdit>, k: nat)
    requires k <= |edits| && EditOutcomes(c, edits[..k]).Err?
    ensures EditOutcomes(c, edits) == EditOutcomes(c, edits[..k])
    decreases |edits| - k
  {
    hide UpdateOdds;
    if k < |edits| {
      assert edits[..k + 1][..k] == edits[..k];
      EditOutcomesStops(c, edits, k + 1);
    } else {
      assert edits[..k] == edits;
    }
  }

  method EditOutcomesInTx(db: Database, edits: seq<OutcomeEdit>) returns (err: Option<Error>)
    modifies db`outcomes, db`faults, db`sane
    ensures Performs(EditOutcomes(old(db.Cat()), edits), db.Cat(), err)
    ensures db.Lost() == old(db.Lost()) - LossOf(err)
    ensures old(db.AlwaysSane()) ==> db.AlwaysSane()
  {
    hide UpdateOdds, Database.AlwaysSane;
    ghost var before := db.Cat();
    for i := 0 to |edits|
      invariant EditOutcomes(before, edits[..i]) == Ok(db.Cat())
      invariant db.Lost() == old(db.Lost())
      invariant old(db.AlwaysSane()) ==> db.AlwaysSane()
    {
      assert edits[..i + 1][..i] == edits[..i];
      err := db.OutcomesUpdateOdds(edits[i].id, edits[i].odds);
      if err.Some? {
        if EditOutcomes(before, edits[..i + 1]).Err? {
          EditOutcomesStops(before, edits, i + 1);
        }
        return;
      }
    }
    assert edits[..|edits|] == edits;
    err := None;
  }

  /** An edit is refused for an unknown event, and for one of another source or past its start. */
  lemma EditGuards(c: Catalogue, source: Source, e: nat, startsAt: Option<int>, edits: seq<OutcomeEdit>)
    ensures e >= |c.events| ==> CatalogueOps.EditDetails(c, source, e, startsAt, edits) == Err(ErrNotFound)
    ensures e < |c.events| && (c.events[e].source != source || c.events[e].status != EventUpcoming) ==>
      CatalogueOps.EditDetails(c, source, e, startsAt, edits) == Err(ErrMarketClosed)
  {
  }

  /** EditEvent and EditMatch without cancel: all edits or none. */
  method EditDetails(db: Database, source: Source, e: nat, startsAt: Option<int>, edits: seq<OutcomeEdit>) returns (err: Option<Error>)
    modifies db
    ensures Concludes(CatalogueOps.EditDetails(old(db.Cat()), source, e, startsAt, edits), old(db.Cat()), db.Cat(), err)
    ensures db.Money() == old(db.Money())
    ensures db.Lost() == old(db.Lost()) - LossOf(err)
    ensures old(db.AlwaysSane()) ==> db.AlwaysSane()
  {
    EditGuards(db.Cat(), source, e, startsAt, edits);
    hide CatalogueOps.EditDetails, Sane;
    var event := db.EventsGet(e);
    if event.Err? {
      return Some(event.error);
    }
    if event.value.source != source || event.value.status != EventUpcoming {
      return Some(ErrMarketClosed);
    }
    err := db.Begin();
    if err.Some? {
      return;
    }
    err := EditInTx(db, source, e, startsAt, edits);
    err := db.End(err);
  }

  method EditInTx(db: Database, source: Source, e: nat, startsAt: Option<int>, edits: seq<OutcomeEdit>) returns (err: Option<Error>)
    requires e < |db.events| && db.events[e].source == source && db.events[e].status == EventUpcoming
    modifies db`events, db`outcomes, db`faults, db`sane
    ensures Performs(CatalogueOps.EditDetails(old(db.Cat()), source, e, startsAt, edits), db.Cat(), err)
    ensures db.Lost() == old(db.Lost()) - LossOf(err)
    ensures old(db.AlwaysSane()) ==> db.AlwaysSane()
  {
    hide EditOutcomes, Database.AlwaysSane;
    assert db.events[e := db.events[e]] == db.events;
    err := db.EventsUpdateDetails(e, startsAt);
    if err.None? {
      err := EditOutcomesInTx(db, edits);
    }
  }

  // ---------- going live ----------

  function SuspendSome(markets: seq<Market>, ids: seq<nat>): seq<Market> {
    seq(|markets|, m requires 0 <= m < |markets| =>
      if m in ids then markets[m].(status := MarketSuspended) else markets[m])
  }

  lemma SuspendOneMore(markets: seq<Market>, ids: seq<nat>, m: nat)
    requires m < |markets|
    ensures SuspendSome(markets, ids)[m := SuspendSome(markets, ids)[m].(status := MarketSuspended)] == SuspendSome(markets, ids + [m])
  {
  }

  lemma SuspendedAll(c: Catalogue, e: nat)
    ensures forall i :: 0 <= i < |MarketsOf(c, e)| ==> MarketsOf(c, e)[i] < |c.markets|
    ensures SuspendSome(c.markets, MarketsOf(c, e)) == Suspended(c.markets, e)
  {
    var ids := MarketsOf(c, e);
    hide Where;
    forall m: nat | m < |c.markets| ensures m in ids <==> c.markets[m].eventId == e {
      assert OfEvent(e)(c.markets[m]) <==> c.markets[m].eventId == e;
    }
  }

  method SuspendInTx(db: Database, e: nat) returns (err: Option<Error>)
    modifies db`markets, db`faults, db`sane
    ensures err.None? ==> db.markets == Suspended(old(db.markets), e)
    ensures err.Some? ==> err.value == ErrConnection
    ensures db.Lost() == old(db.Lost()) - LossOf(err)
    ensures old(db.AlwaysSane()) ==> db.AlwaysSane()
  {
    hide Database.AlwaysSane, MarketsOf, SuspendSome, Suspended;
    var ids := db.MarketsGetByEvent(e);
    if ids.Err? {
      return Some(ids.error);
    }
    SuspendedAll(db.Cat(), e);
    err := SuspendListed(db, ids.value);
  }

  method SuspendListed(db: Database, ids: seq<nat>) returns (err: Option<Error>)
    requires forall i :: 0 <= i < |ids| ==> ids[i] < |db.markets|
    modifies db`markets, db`faults, db`sane
    ensures err.None? ==> db.markets == SuspendSome(old(db.markets), ids)
    ensures err.Some? ==> err.value == ErrConnection
    ensures db.Lost() == old(db.Lost()) - LossOf(err)
    ensures old(db.AlwaysSane()) ==> db.AlwaysSane()
  {
    hide Database.AlwaysSane;
    for i := 0 to |ids|
      invariant db.markets == SuspendSome(old(db.markets), ids[..i])
      invariant db.Lost() == old(db.Lost())
      invariant old(db.AlwaysSane()) ==> db.AlwaysSane()
    {
      err := db.MarketsUpdateStatus(ids[i], MarketSuspended);
      if err.Some? {
        return;
      }
      assert ids[..i + 1] == ids[..i] + [ids[i]];
      SuspendOneMore(old(db.markets), ids[..i], ids[i]);
    }
    assert ids[..|ids|] == ids;
    err := None;
  }

  /** The event and all its markets, or nothing. */
  method SetMatchStatus(db: Database, e: nat, status: EventStatus) returns (err: Option<Error>)
    modifies db
    ensures Concludes(CatalogueOps.SetMatchStatus(old(db.Cat()), e, status), old(db.Cat()), db.Cat(), err)
    ensures db.Money() == old(db.Money())
    ensures db.Lost() == old(db.Lost()) - LossOf(err)
    ensures old(db.AlwaysSane()) ==> db.AlwaysSane()
  {
    hide Suspended, Sane;
    if status != EventLive {
      return Some(ErrMarketClosed);
    }
    var event := db.EventsGet(e);
    if event.Err? {
      return Some(event.error);
    }
    if event.value.source != SourceManual || event.value.status != EventUpcoming {
      return Some(ErrMarketClosed);
    }
    err := db.Begin();
    if err.Some? {
      return;
    }
    err := GoLiveInTx(db, e);
    err := db.End(err);
  }

  method GoLiveInTx(db: Database, e: nat) returns (err: Option<Error>)
    requires e < |db.events| && db.events[e].source == SourceManual && db.events[e].status == EventUpcoming
    modifies db`events, db`markets, db`faults, db`sane
    ensures Performs(CatalogueOps.SetMatchStatus(old(db.Cat()), e, EventLive), db.Cat(), err)
    ensures db.Lost() == old(db.Lost()) - LossOf(err)
    ensures old(db.AlwaysSane()) ==> db.AlwaysSane()
  {
    hide Suspended, Database.AlwaysSane;
    err := db.EventsUpdateStatus(e, EventLive);
    if err.None? {
      err := SuspendInTx(db, e);
    }
  }

  // ---------- closing ----------

  /** The settlement an accepted guard asks for. */
  function Accepted(db: Db, guard: Try<Service.Close>): Try<Db> {
    match guard
    case Err(error) => Err(error)
    case Ok(close) => Settlement.Settle(db, close.e, close.final, close.d, close.scores)
  }

  /** CancelEvent for any source, CancelMatch for manual matches only. */
  method CancelEvent(db: Database, e: nat, manualOnly: bool) returns (err: Option<Error>)
    modifies db
    ensures Concludes(Accepted(old(db.Snapshot()), Service.CancelGuard(old(db.Cat()), e, manualOnly)),
                      old(db.Snapshot()), db.Snapshot(), err)
    ensures db.Lost() == old(db.Lost()) - LossOf(err)
    ensures old(db.AlwaysSane()) ==> db.AlwaysSane()
  {
    hide Sane, Settlement.ApplyPlan, PlanOf;
    var event := db.EventsGet(e);
    if event.Err? {
      return Some(event.error);
    }
    if (manualOnly && event.value.source != SourceManual) || event.value.status == EventSettled || event.value.status == EventCancelled {
      return Some(ErrMarketClosed);
    }
    err := SettlementService.SettleEvent(db, e, EventCancelled, NoScores);
  }

  method SettleCustom(db: Database, e: nat, winner: nat) returns (err: Option<Error>)
    modifies db
    ensures Concludes(Accepted(old(db.Snapshot()), Service.CustomGuard(old(db.Cat()), e, winner)),
                      old(db.Snapshot()), db.Snapshot(), err)
    ensures db.Lost() == old(db.Lost()) - LossOf(err)
    ensures old(db.AlwaysSane()) ==> db.AlwaysSane()
  {
    hide Sane, Settlement.ApplyPlan, PlanOf;
    var event := db.EventsGet(e);
    if event.Err? {
      return Some(event.error);
    }
    if event.value.source != SourceCustom || event.value.status == EventSettled || event.value.status == EventCancelled {
      return Some(ErrMarketClosed);
    }
    err := SettlementService.SettleCustomEvent(db, e, winner);
  }

  method SetMatchScores(db: Database, e: nat, home: int, away: int) returns (err: Option<Error>)
    modifies db
    ensures Concludes(Accepted(old(db.Snapshot()), Service.ScoresGuard(old(db.Cat()), e, home, away)),
                      old(db.Snapshot()), db.Snapshot(), err)
    ensures db.Lost() == old(db.Lost()) - LossOf(err)
    ensures old(db.AlwaysSane()) ==> db.AlwaysSane()
  {
    hide Sane, Settlement.ApplyPlan, PlanOf;
    if home < 0 || away < 0 {
      return Some(ErrBetOutOfRange);
    }
    var event := db.EventsGet(e);
    if event.Err? {
      return Some(event.error);
    }
    if event.value.source != SourceManual || (event.value.status != EventUpcoming && event.value.status != EventLive) {
      return Some(ErrMarketClosed);
    }
    if event.value.scores != NoScores {
      return Some(ErrMarketClosed);
    }
    err := SettlementService.SettleEvent(db, e, EventSettled, Decoded(home, away));
  }

  /** EditEvent (custom) and EditMatch (manual): cancelling wins over every other edit. */
  method Edit(db: Database, source: Source, e: nat, cancel: bool, leagueFound: bool, startsAt: Option<int>, edits: seq<OutcomeEdit>,
              ghost cfg: Config)
    returns (err: Option<Error>)
    requires source == SourceCustom || source == SourceManual
    requires source == SourceCustom ==> leagueFound
    modifies db
    ensures var op := if source == SourceCustom then Service.EditCustom(e, cancel, startsAt, edits)
                      else Service.EditMatch(e, cancel, leagueFound, startsAt, edits);
      Concludes(Service.Step(old(db.Snapshot()), cfg, op), old(db.Snapshot()), db.Snapshot(), err)
    ensures db.Lost() == old(db.Lost()) - LossOf(err)
    ensures old(db.AlwaysSane()) ==> db.AlwaysSane()
  {
    hide Sane, Settlement.Settle, EditOutcomes, Service.CancelGuard;
    var ok := ValidateEdits(edits);
    if !ok {
      return Some(ErrBetOutOfRange);
    }
    if cancel {
      err := CancelEvent(db, e, source == SourceManual);
      return;
    }
    if !leagueFound {
      err := RefuseLeague(db, e, startsAt, edits);
      return;
    }
    err := EditDetails(db, source, e, startsAt, edits);
  }

  /** The guards of EditMatch, then a league that does not exist. */
  method RefuseLeague(db: Database, e: nat, startsAt: Option<int>, edits: seq<OutcomeEdit>) returns (err: Option<Error>)
    requires ValidEdits(edits)
    modifies db`faults
    ensures err.Some?
    ensures Refused(Service.StepCatalogue(db.Cat(), Service.EditMatch(e, false, false, startsAt, edits)), err.value)
    ensures db.Lost() == old(db.Lost()) - LossOf(err)
  {
    var event := db.EventsGet(e);
    if event.Err? {
      return Some(event.error);
    }
    if event.value.source != SourceManual || event.value.status != EventUpcoming {
      return Some(ErrMarketClosed);
    }
    err := db.Send(); // leagues.GetByID
    return if err.Some? then err else Some(ErrNotFound);
  }

  /** One event of the settlement worker: a final state reported by the source settles it. */
  method ProcessEvent(db: Database, now: int, e: nat, status: EventStatus, scores: Scores) returns (err: Option<Error>)
    requires e < |db.events| && db.events[e].source == SourceOddsAPI && !Terminal(db.events[e].status) && db.events[e].startsAt < now
    modifies db
    ensures !Terminal(status) ==> err == None && db.Snapshot() == old(db.Snapshot())
    ensures Terminal(status) ==>
      Concludes(Accepted(old(db.Snapshot()), Service.ResultGuard(old(db.Cat()), now, e, status, scores)),
                old(db.Snapshot()), db.Snapshot(), err)
    ensures db.Lost() == old(db.Lost()) - LossOf(err)
    ensures old(db.AlwaysSane()) ==> db.AlwaysSane()
  {
    hide Sane, Settlement.ApplyPlan, PlanOf;
    if status == EventSettled || status == EventCancelled {
      err := SettlementService.SettleEvent(db, e, status, scores);
    } else {
      err := None;
    }
  }
}
