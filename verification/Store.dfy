/** The repositories: tables changed one statement at a time, a connection that may fail, one transaction. */
module Store {
  import opened Sums
  import opened Domain
  import opened BankOps
  import opened Plans
  import opened CatalogueOps

  /**
   * How a call that should do what spec says may end: it did; or it changed nothing and reports either
   * spec's own error or a lost statement.
   */
  ghost predicate Concludes<T>(spec: Try<T>, before: T, after: T, err: Option<Error>) {
    match err
    case None => spec == Ok(after)
    case Some(e) => after == before && Refused(spec, e)
  }

  ghost predicate Refused<T>(spec: Try<T>, e: Error) {
    spec == Err(e) || e == ErrConnection
  }

  /** A refused statement: the schema's reason, or it was lost. */
  ghost predicate FailsWhen(e: Error, why: Error, reason: bool) {
    (e == why && reason) || e == ErrConnection
  }

  function ErrorOf<T>(r: Try<T>): Option<Error> {
    if r.Ok? then None else Some(r.error)
  }

  /** How many statements a script of coming statements loses. */
  function LostIn(faults: seq<bool>): nat {
    if |faults| == 0 then 0 else (if faults[0] then 1 else 0) + LostIn(faults[1..])
  }

  /** Row o is market m's outcome with this code, at this price. */
  ghost predicate IsRow(c: Catalogue, o: nat, m: nat, code: OutcomeCode, odds: real) {
    o < |c.outcomes| && Keyed(m, code)(c.outcomes[o]) && Some(c.outcomes[o].odds) == StoredOdds(odds)
  }

  lemma UpsertedRow(c: Catalogue, m: nat, code: OutcomeCode, odds: real)
    requires UpsertOutcome(c, m, code, odds).Ok?
    ensures var ids := Where(c.outcomes, Keyed(m, code));
      IsRow(UpsertOutcome(c, m, code, odds).value, if ids == [] then |c.outcomes| else ids[0], m, code, odds)
  {
    hide StoredOdds;
    var ids := Where(c.outcomes, Keyed(m, code));
    assert ids != [] ==> Keyed(m, code)(c.outcomes[ids[0]]);
  }

  /** The statements a call lost: one if it reports a lost connection, else none. */
  function LossOf(err: Option<Error>): nat {
    if err == Some(ErrConnection) then 1 else 0
  }

  ghost predicate IsListing(rows: seq<(nat, Bet)>, bets: seq<Bet>, results: map<nat, Result>) {
    var ids := Where(bets, PendingOn(results));
    |rows| == |ids| && forall i :: 0 <= i < |rows| ==> rows[i] == (ids[i], bets[ids[i]])
  }

  /** The database as the services see it. */
  class Database {
    var events: seq<Event>
    var markets: seq<Market>
    var outcomes: seq<Outcome>
    var users: seq<User>
    var identities: map<(Provider, string), nat>
    var wallets: map<nat, int>
    var bets: seq<Bet>
    var ledger: seq<LedgerRow>

    var faults: seq<bool> // whether each coming statement is lost
    var saved: Db         // the state a rollback returns to

    ghost var sane: bool // Sane has held after every write so far

    function Cat(): Catalogue
      reads this`events, this`markets, this`outcomes
    {
      Catalogue(events, markets, outcomes)
    }

    function Money(): Bank
      reads this`users, this`identities, this`wallets, this`bets, this`ledger
    {
      Bank(users, identities, wallets, bets, ledger)
    }

    function Snapshot(): Db
      reads this`events, this`markets, this`outcomes, this`users, this`identities, this`wallets, this`bets, this`ledger
    {
      Db(Cat(), Money())
    }

    /** The statements still to be lost; none while the connection holds. */
    ghost function Lost(): nat
      reads this`faults
    {
      LostIn(faults)
    }

    /** The catalogue is sane now and was after every write before. */
    ghost predicate AlwaysSane()
      reads this`events, this`markets, this`outcomes, this`sane
    {
      sane && Sane(Cat())
    }

    constructor ()
      ensures Snapshot() == Db(Catalogue([], [], []), Bank([], map[], map[], [], [])) && sane && Lost() == 0
    {
      events, markets, outcomes := [], [], [];
      users, identities, wallets, bets, ledger := [], map[], map[], [], [];
      faults := [];
      saved := Db(Catalogue([], [], []), Bank([], map[], map[], [], []));
      sane := true;
    }

    /** Sending one statement: it may be lost. */
    method Send() returns (err: Option<Error>)
      modifies this`faults
      ensures err.Some? ==> err.value == ErrConnection
      ensures Lost() == old(Lost()) - LossOf(err)
      ensures err.Some? <==> |old(faults)| > 0 && old(faults)[0]
    {
      if |faults| == 0 {
        return None;
      }
      var lost := faults[0];
      faults := faults[1..];
      return if lost then Some(ErrConnection) else None;
    }

    // ---------- TxManager.RunInTx ----------

    method Begin() returns (err: Option<Error>)
      modifies this`faults, this`saved
      ensures err.Some? ==> err.value == ErrConnection
      ensures err.None? ==> saved == Snapshot()
      ensures Lost() == old(Lost()) - LossOf(err)
    {
      err := Send();
      if err.None? {
        saved := Snapshot();
      }
    }

    /** Commit after the function returned nil, roll back after it returned an error. */
    method End(result: Option<Error>) returns (err: Option<Error>)
      modifies this
      ensures result.Some? ==> err == result
      ensures result.None? && err.Some? ==> err.value == ErrConnection
      ensures Snapshot() == if err.None? then old(Snapshot()) else old(saved)
      ensures Lost() == old(Lost()) - if result.None? then LossOf(err) else 0
      ensures old(AlwaysSane() && Sane(saved.cat)) ==> AlwaysSane()
    {
      hide Sane;
      err := result;
      if err.None? {
        err := Send();
      }
      if err.Some? {
        Restore();
      }
    }

    method Restore()
      modifies this`events, this`markets, this`outcomes, this`users, this`identities, this`wallets, this`bets, this`ledger
      ensures Snapshot() == saved
    {
      events, markets, outcomes := saved.cat.events, saved.cat.markets, saved.cat.outcomes;
      users, identities, wallets := saved.bank.users, saved.bank.identities, saved.bank.wallets;
      bets, ledger := saved.bank.bets, saved.bank.ledger;
    }

    // ---------- users, wallets, ledger, bets ----------

    method UsersCreate(email: Option<string>) returns (err: Option<Error>)
      modifies this`users, this`faults
      ensures err.None? ==> Where(old(users), HasEmail(email)) == [] && users == old(users) + [User(email)]
      ensures err.Some? ==>
        users == old(users) && FailsWhen(err.value, ErrConflict, Where(users, HasEmail(email)) != [])
      ensures Lost() == old(Lost()) - LossOf(err)
    {
      err := Send();
      if err.None? {
        if Where(users, HasEmail(email)) != [] {
          return Some(ErrConflict);
        }
        users := users + [User(email)];
      }
    }

    method IdentitiesCreate(key: (Provider, string), u: nat) returns (err: Option<Error>)
      requires key !in identities
      modifies this`identities, this`faults
      ensures err.None? ==> identities == old(identities)[key := u]
      ensures err.Some? ==> identities == old(identities) && err.value == ErrConnection
      ensures Lost() == old(Lost()) - LossOf(err)
    {
      err := Send();
      if err.None? {
        identities := identities[key := u];
      }
    }

    method WalletsCreate(u: nat) returns (err: Option<Error>)
      modifies this`wallets, this`faults
      ensures err.None? ==> u !in old(wallets) && wallets == old(wallets)[u := 0]
      ensures err.Some? ==> wallets == old(wallets) && FailsWhen(err.value, ErrConflict, u in wallets)
      ensures Lost() == old(Lost()) - LossOf(err)
    {
      err := Send();
      if err.None? {
        if u in wallets {
          return Some(ErrConflict);
        }
        wallets := wallets[u := 0];
      }
    }

    /** SELECT ... FOR UPDATE. */
    method WalletsGetForUpdate(u: nat) returns (r: Try<int>)
      modifies this`faults
      ensures r.Ok? ==> u in wallets && r.value == wallets[u]
      ensures r.Err? ==> FailsWhen(r.error, ErrNotFound, u !in wallets)
      ensures Lost() == old(Lost()) - LossOf(ErrorOf(r))
    {
      var err := Send();
      if err.Some? {
        return Err(err.value);
      }
      return if u in wallets then Ok(wallets[u]) else Err(ErrNotFound);
    }

    /** SET balance = balance + delta, guarded by CHECK (balance >= 0); returns the new balance. */
    method WalletsUpdateBalance(u: nat, delta: int) returns (r: Try<int>)
      modifies this`wallets, this`faults
      ensures r.Ok? ==> u in old(wallets) && r.value == old(wallets)[u] + delta >= 0 && wallets == old(wallets)[u := r.value]
      ensures r.Err? ==> wallets == old(wallets)
      ensures r.Err? ==>
        || FailsWhen(r.error, ErrNotFound, u !in wallets)
        || FailsWhen(r.error, ErrCheckViolation, u in wallets && wallets[u] + delta < 0)
      ensures Lost() == old(Lost()) - LossOf(ErrorOf(r))
    {
      var err := Send();
      if err.Some? {
        return Err(err.value);
      }
      if u !in wallets {
        return Err(ErrNotFound);
      }
      if wallets[u] + delta < 0 {
        return Err(ErrCheckViolation);
      }
      wallets := wallets[u := wallets[u] + delta];
      return Ok(wallets[u]);
    }

    method LedgerCreate(row: LedgerRow) returns (err: Option<Error>)
      modifies this`ledger, this`faults
      ensures err.None? ==> ledger == old(ledger) + [row]
      ensures err.Some? ==> ledger == old(ledger) && err.value == ErrConnection
      ensures Lost() == old(Lost()) - LossOf(err)
    {
      err := Send();
      if err.None? {
        ledger := ledger + [row];
      }
    }

    method BetsCreate(bet: Bet) returns (r: Try<nat>)
      modifies this`bets, this`faults
      ensures r.Ok? ==> bet.stake > 0 && r.value == |old(bets)| && bets == old(bets) + [bet]
      ensures r.Err? ==> bets == old(bets) && FailsWhen(r.error, ErrCheckViolation, bet.stake <= 0)
      ensures Lost() == old(Lost()) - LossOf(ErrorOf(r))
    {
      var err := Send();
      if err.Some? {
        return Err(err.value);
      }
      if bet.stake <= 0 {
        return Err(ErrCheckViolation);
      }
      bets := bets + [bet];
      return Ok(|bets| - 1);
    }

    /** WHERE status = 'pending' AND outcome_id = ANY(...) ORDER BY id: ids and rows. */
    method BetsListPendingByOutcomes(results: map<nat, Result>) returns (r: Try<seq<(nat, Bet)>>)
      modifies this`faults
      ensures r.Ok? ==> IsListing(r.value, bets, results)
      ensures r.Err? ==> r.error == ErrConnection
      ensures Lost() == old(Lost()) - LossOf(ErrorOf(r))
    {
      if results == map[] { // no outcomes: the query is not sent
        WhereNone(bets, PendingOn(results));
        return Ok([]);
      }
      var err := Send();
      if err.Some? {
        return Err(err.value);
      }
      var ids := Where(bets, PendingOn(results));
      var all := bets;
      var rows := seq(|ids|, i requires 0 <= i < |ids| => (ids[i], all[ids[i]]));
      assert IsListing(rows, bets, results);
      return Ok(rows);
    }

    method BetsUpdateStatusSettled(b: nat, status: BetStatus) returns (err: Option<Error>)
      modifies this`bets, this`faults
      ensures err.None? ==> b < |old(bets)| && bets == old(bets)[b := old(bets)[b].(status := status)]
      ensures err.Some? ==> bets == old(bets) && FailsWhen(err.value, ErrNotFound, b >= |bets|)
      ensures Lost() == old(Lost()) - LossOf(err)
    {
      err := Send();
      if err.None? {
        if b >= |bets| {
          return Some(ErrNotFound);
        }
        bets := bets[b := bets[b].(status := status)];
      }
    }

    // ---------- events, markets, outcomes ----------

    method EventsGet(e: nat) returns (r: Try<Event>)
      modifies this`faults
      ensures r.Ok? ==> e < |events| && r.value == events[e]
      ensures r.Err? ==> FailsWhen(r.error, ErrNotFound, e >= |events|)
      ensures Lost() == old(Lost()) - LossOf(ErrorOf(r))
    {
      var err := Send();
      if err.Some? {
        return Err(err.value);
      }
      return if e < |events| then Ok(events[e]) else Err(ErrNotFound);
    }

    method MarketsGet(m: nat) returns (r: Try<Market>)
      modifies this`faults
      ensures r.Ok? ==> m < |markets| && r.value == markets[m]
      ensures r.Err? ==> FailsWhen(r.error, ErrNotFound, m >= |markets|)
      ensures Lost() == old(Lost()) - LossOf(ErrorOf(r))
    {
      var err := Send();
      if err.Some? {
        return Err(err.value);
      }
      return if m < |markets| then Ok(markets[m]) else Err(ErrNotFound);
    }

    method OutcomesGet(o: nat) returns (r: Try<Outcome>)
      modifies this`faults
      ensures r.Ok? ==> o < |outcomes| && r.value == outcomes[o]
      ensures r.Err? ==> FailsWhen(r.error, ErrNotFound, o >= |outcomes|)
      ensures Lost() == old(Lost()) - LossOf(ErrorOf(r))
    {
      var err := Send();
      if err.Some? {
        return Err(err.value);
      }
      return if o < |outcomes| then Ok(outcomes[o]) else Err(ErrNotFound);
    }

    method MarketsGetByEvent(e: nat) returns (r: Try<seq<nat>>)
      modifies this`faults
      ensures r.Ok? ==> r.value == MarketsOf(Cat(), e)
      ensures r.Err? ==> r.error == ErrConnection
      ensures Lost() == old(Lost()) - LossOf(ErrorOf(r))
    {
      var err := Send();
      return if err.Some? then Err(err.value) else Ok(MarketsOf(Cat(), e));
    }

    // Each write of the catalogue keeps it sane by itself; only an outcome needs its market priceable first.

    method EventsCreate(source: Source, externalId: Option<int>, startsAt: int, status: EventStatus, scores: Scores)
      returns (r: Try<nat>)
      modifies this`events, this`faults, this`sane
      ensures r.Ok? ==> r.value == |old(events)| && Cat() == InsertEvent(old(Cat()), source, externalId, startsAt, status, scores)
      ensures r.Err? ==> events == old(events) && r.error == ErrConnection
      ensures Lost() == old(Lost()) - LossOf(ErrorOf(r))
      ensures old(AlwaysSane()) ==> AlwaysSane()
    {
      var err := Send();
      if err.Some? {
        return Err(err.value);
      }
      ghost var before := Cat();
      events := events + [Event(source, externalId, startsAt, status, scores)];
      MoreEvents(before);
      return Ok(|events| - 1);
    }

    /** The monitor after a write that only appended or changed event rows. */
    ghost method MoreEvents(before: Catalogue)
      requires markets == before.markets && outcomes == before.outcomes && |before.events| <= |events|
      modifies this`sane
      ensures sane == (old(sane) && Sane(Cat()))
      ensures old(sane) && Sane(before) ==> AlwaysSane()
    {
      if Sane(before) {
        MoreEventsKeepSane(before, Cat());
      }
      sane := sane && Sane(Cat());
    }

    method EventsUpdateStatus(e: nat, status: EventStatus) returns (err: Option<Error>)
      modifies this`events, this`faults, this`sane
      ensures err.None? ==> e < |old(events)| && events == old(events)[e := old(events)[e].(status := status)]
      ensures err.Some? ==> events == old(events) && FailsWhen(err.value, ErrNotFound, e >= |events|)
      ensures Lost() == old(Lost()) - LossOf(err)
      ensures old(AlwaysSane()) ==> AlwaysSane()
    {
      err := Send();
      if err.Some? {
        return;
      }
      if e >= |events| {
        return Some(ErrNotFound);
      }
      ghost var before := Cat();
      events := events[e := events[e].(status := status)];
      MoreEvents(before);
    }

    method EventsUpdateStatusAndScores(e: nat, status: EventStatus, scores: Scores) returns (err: Option<Error>)
      modifies this`events, this`faults, this`sane
      ensures err.None? ==> e < |old(events)| && events == old(events)[e := old(events)[e].(status := status, scores := scores)]
      ensures err.Some? ==> events == old(events) && FailsWhen(err.value, ErrNotFound, e >= |events|)
      ensures Lost() == old(Lost()) - LossOf(err)
      ensures old(AlwaysSane()) ==> AlwaysSane()
    {
      err := Send();
      if err.Some? {
        return;
      }
      if e >= |events| {
        return Some(ErrNotFound);
      }
      ghost var before := Cat();
      events := events[e := events[e].(status := status, scores := scores)];
      MoreEvents(before);
    }

    /** UpdateDetails and UpdateMatch: only the given fields, but the row must exist. */
    method EventsUpdateDetails(e: nat, startsAt: Option<int>) returns (err: Option<Error>)
      modifies this`events, this`faults, this`sane
      ensures err.None? ==> e < |old(events)|
      ensures err.None? && startsAt.None? ==> events == old(events)
      ensures err.None? && startsAt.Some? ==> events == old(events)[e := old(events)[e].(startsAt := startsAt.value)]
      ensures err.Some? ==> events == old(events) && FailsWhen(err.value, ErrNotFound, e >= |events|)
      ensures Lost() == old(Lost()) - LossOf(err)
      ensures old(AlwaysSane()) ==> AlwaysSane()
    {
      err := Send();
      if err.Some? {
        return;
      }
      if e >= |events| {
        return Some(ErrNotFound);
      }
      if startsAt.Some? {
        ghost var before := Cat();
        events := events[e := events[e].(startsAt := startsAt.value)];
        MoreEvents(before);
      }
    }

    /** INSERT ... ON CONFLICT (source, external_id) DO UPDATE. */
    method EventsUpsert(api: ApiEvent) returns (r: Try<nat>)
      modifies this`events, this`faults, this`sane
      ensures r.Ok? ==> UpsertEvent(old(Cat()), api) == (Cat(), r.value)
      ensures r.Err? ==> events == old(events) && r.error == ErrConnection
      ensures Lost() == old(Lost()) - LossOf(ErrorOf(r))
      ensures old(AlwaysSane()) ==> AlwaysSane()
    {
      var err := Send();
      if err.Some? {
        return Err(err.value);
      }
      ghost var before := Cat();
      var ids := Where(events, Feed(api.externalId));
      if ids == [] {
        events := events + [Event(SourceOddsAPI, Some(api.externalId), api.startsAt, api.status, api.scores)];
        r := Ok(|events| - 1);
      } else {
        var stored := events[ids[0]];
        var scores := if api.scores == NoScores then stored.scores else api.scores;
        events := events[ids[0] := stored.(startsAt := api.startsAt, status := api.status, scores := scores)];
        r := Ok(ids[0]);
      }
      MoreEvents(before);
    }

    method MarketsCreateForEvent(e: nat, kind: MarketType, line: Option<real>) returns (r: Try<nat>)
      modifies this`markets, this`faults, this`sane
      ensures r.Ok? ==> r.value == |old(markets)| && InsertMarket(old(Cat()), e, kind, line) == Ok(Cat())
      ensures r.Err? ==> markets == old(markets) && Refused(InsertMarket(Cat(), e, kind, line), r.error)
      ensures Lost() == old(Lost()) - LossOf(ErrorOf(r))
      ensures old(AlwaysSane()) ==> AlwaysSane()
    {
      hide Sane, Rounded;
      var err := Send();
      if err.Some? {
        return Err(err.value);
      }
      var stored := if line.Some? then StoredLine(line.value) else None;
      if e >= |events| || (line.Some? && stored.None?) {
        return Err(ErrCheckViolation);
      }
      ghost var before := Cat();
      markets := markets + [Market(e, kind, stored, MarketOpen)];
      if Sane(before) {
        InsertMarketKeepsSane(before, e, kind, line);
      }
      sane := sane && Sane(Cat());
      return Ok(|markets| - 1);
    }

    method MarketsUpdateStatus(m: nat, status: MarketStatus) returns (err: Option<Error>)
      modifies this`markets, this`faults, this`sane
      ensures Concludes(UpdateMarketStatus(old(Cat()), m, status), old(Cat()), Cat(), err)
      ensures Lost() == old(Lost()) - LossOf(err)
      ensures old(AlwaysSane()) ==> AlwaysSane()
    {
      hide Sane;
      err := Send();
      if err.Some? {
        return;
      }
      if m >= |markets| {
        return Some(ErrNotFound);
      }
      ghost var before := Cat();
      markets := markets[m := markets[m].(status := status)];
      if Sane(before) {
        UpdateStatusKeepsSane(before, m, status);
      }
      sane := sane && Sane(Cat());
    }

    /** No line given writes NULL, which is sane only while no priced totals market needs the line. */
    method MarketsUpdateLine(m: nat, line: Option<real>) returns (err: Option<Error>)
      modifies this`markets, this`faults, this`sane
      ensures Concludes(UpdateLine(old(Cat()), m, line), old(Cat()), Cat(), err)
      ensures Lost() == old(Lost()) - LossOf(err)
      ensures old(AlwaysSane()) && (line.Some? || !Needed(old(Cat()), m)) ==> AlwaysSane()
    {
      hide Sane, Rounded, Needed;
      err := Send();
      if err.Some? {
        return;
      }
      if m >= |markets| {
        return Some(ErrNotFound);
      }
      var stored := if line.Some? then StoredLine(line.value) else None;
      if line.Some? && stored.None? {
        return Some(ErrCheckViolation);
      }
      ghost var before := Cat();
      markets := markets[m := markets[m].(line := stored)];
      if Sane(before) && (line.Some? || !Needed(before, m)) {
        UpdateLineKeepsSane(before, m, line);
      }
      sane := sane && Sane(Cat());
    }

    /** INSERT ... ON CONFLICT (market_id, code) DO UPDATE ... RETURNING id. */
    method OutcomesUpsert(m: nat, code: OutcomeCode, odds: real) returns (r: Try<nat>)
      modifies this`outcomes, this`faults, this`sane
      ensures Concludes(UpsertOutcome(old(Cat()), m, code, odds), old(Cat()), Cat(), ErrorOf(r))
      ensures r.Ok? ==> IsRow(Cat(), r.value, m, code, odds)
      ensures Lost() == old(Lost()) - LossOf(ErrorOf(r))
      ensures old(AlwaysSane() && Priceable(Cat(), m)) ==> AlwaysSane()
    {
      hide Sane, StoredOdds, IsRow, Where, Keyed;
      var err := Send();
      if err.Some? {
        return Err(err.value);
      }
      if StoredOdds(odds).None? || m >= |markets| {
        return Err(ErrCheckViolation);
      }
      ghost var before := Cat();
      var o := WriteOutcome(m, code, odds);
      hide UpsertOutcome;
      if Sane(before) && Priceable(before, m) {
        UpsertOutcomeKeepsSane(before, m, code, odds);
      }
      sane := sane && Sane(Cat());
      return Ok(o);
    }

    method WriteOutcome(m: nat, code: OutcomeCode, odds: real) returns (o: nat)
      requires m < |markets| && StoredOdds(odds).Some?
      modifies this`outcomes
      ensures UpsertOutcome(old(Cat()), m, code, odds) == Ok(Cat()) && IsRow(Cat(), o, m, code, odds)
    {
      hide StoredOdds, IsRow;
      UpsertedRow(Cat(), m, code, odds);
      var ids := Where(outcomes, Keyed(m, code));
      if ids == [] {
        outcomes := outcomes + [Outcome(m, code, StoredOdds(odds).value, None)];
        return |outcomes| - 1;
      }
      outcomes := outcomes[ids[0] := outcomes[ids[0]].(odds := StoredOdds(odds).value)];
      return ids[0];
    }

    method OutcomesUpdateOdds(o: nat, odds: Option<real>) returns (err: Option<Error>)
      modifies this`outcomes, this`faults, this`sane
      ensures Concludes(UpdateOdds(old(Cat()), o, odds), old(Cat()), Cat(), err)
      ensures Lost() == old(Lost()) - LossOf(err)
      ensures old(AlwaysSane()) ==> AlwaysSane()
    {
      hide Sane, Rounded;
      err := Send();
      if err.Some? {
        return;
      }
      if o >= |outcomes| {
        return Some(ErrNotFound);
      }
      if odds.None? {
        return;
      }
      var stored := StoredOdds(odds.value);
      if stored.None? {
        return Some(ErrCheckViolation);
      }
      ghost var before := Cat();
      outcomes := outcomes[o := outcomes[o].(odds := stored.value)];
      if Sane(before) {
        UpdateOddsKeepsSane(before, o, odds);
      }
      sane := sane && Sane(Cat());
    }

    method OutcomesUpdateResult(o: nat, result: Result) returns (err: Option<Error>)
      modifies this`outcomes, this`faults, this`sane
      ensures err.None? ==> o < |old(outcomes)| && outcomes == old(outcomes)[o := old(outcomes)[o].(result := Some(result))]
      ensures err.Some? ==> outcomes == old(outcomes) && FailsWhen(err.value, ErrNotFound, o >= |outcomes|)
      ensures Lost() == old(Lost()) - LossOf(err)
      ensures old(AlwaysSane()) ==> AlwaysSane()
    {
      hide Sane;
      err := Send();
      if err.Some? {
        return;
      }
      if o >= |outcomes| {
        return Some(ErrNotFound);
      }
      ghost var before := Cat();
      outcomes := outcomes[o := outcomes[o].(result := Some(result))];
      if Sane(before) {
        SameKeysKeepSane(before, Cat());
      }
      sane := sane && Sane(Cat());
    }
  }
}
