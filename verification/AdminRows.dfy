/** When an admin's or worker's call is accepted, and which rows it then writes. */
module AdminRows {
  import opened Sums
  import opened Domain
  import opened Plans
  import opened CatalogueOps
  import opened Settlement
  import opened Service
  import OddsSync
  import Workers

  /** Neither settled nor cancelled. */
  predicate StillOpen(ev: Event) {
    ev.status == EventUpcoming || ev.status == EventLive
  }

  predicate PricesAboveOne(edits: seq<OutcomeEdit>) {
    forall i :: 0 <= i < |edits| && edits[i].odds.Some? ==> edits[i].odds.value > 1.0
  }

  // ---------- closing calls ----------

  /** A score is taken once, for a manual match that is still open, and settles the match at that score. */
  lemma SetScoresExactlyWhen(db: Db, cfg: Config, e: nat, home: int, away: int)
    ensures var accepted := home >= 0 && away >= 0 && e < |db.cat.events| && db.cat.events[e].source == SourceManual
                            && StillOpen(db.cat.events[e]) && db.cat.events[e].scores == NoScores;
      && (CloseOf(db.cat, SetScores(e, home, away)).Ok? <==> accepted)
      && (accepted ==> Step(db, cfg, SetScores(e, home, away)) == SettleEvent(db, e, EventSettled, Decoded(home, away)))
      && (!accepted ==> Exec(db, cfg, SetScores(e, home, away)) == db)
  {
    hide ApplyPlan, PlanOf;
  }

  /** A winner is named for a custom event that is still open. */
  lemma SettleCustomExactlyWhen(db: Db, cfg: Config, e: nat, winner: nat)
    ensures var accepted := e < |db.cat.events| && db.cat.events[e].source == SourceCustom && StillOpen(db.cat.events[e]);
      && (CloseOf(db.cat, SettleCustom(e, winner)).Ok? <==> accepted)
      && (accepted ==> Step(db, cfg, SettleCustom(e, winner)) == SettleCustomEvent(db, e, winner))
      && (!accepted ==> Exec(db, cfg, SettleCustom(e, winner)) == db)
  {
    hide ApplyPlan, PlanOf;
  }

  /** EditEvent cancels an open event of any source, EditMatch an open manual match. */
  lemma CancelExactlyWhen(db: Db, cfg: Config, e: nat, leagueFound: bool, startsAt: Option<int>, edits: seq<OutcomeEdit>)
    ensures var open := PricesAboveOne(edits) && e < |db.cat.events| && StillOpen(db.cat.events[e]);
            var any, match_ := EditCustom(e, true, startsAt, edits), EditMatch(e, true, leagueFound, startsAt, edits);
      && (CloseOf(db.cat, any).Ok? <==> open)
      && (CloseOf(db.cat, match_).Ok? <==> open && db.cat.events[e].source == SourceManual)
      && (open ==> Step(db, cfg, any) == SettleEvent(db, e, EventCancelled, NoScores))
      && (open && db.cat.events[e].source == SourceManual ==>
            Step(db, cfg, match_) == SettleEvent(db, e, EventCancelled, NoScores))
      && (!open ==> Exec(db, cfg, any) == db && Exec(db, cfg, match_) == db)
  {
    hide ApplyPlan, PlanOf;
  }

  /** The settlement worker closes a started feed event that is still open, when its source reports a usable final state. */
  lemma FeedResultExactlyWhen(db: Db, cfg: Config, now: int, e: nat, status: EventStatus, scores: Scores)
    ensures var accepted := e < |db.cat.events| && db.cat.events[e].source == SourceOddsAPI && StillOpen(db.cat.events[e])
                            && db.cat.events[e].startsAt < now
                            && (status == EventCancelled
                                || (status == EventSettled && scores.Decoded? && scores.home >= 0 && scores.away >= 0));
      && (CloseOf(db.cat, FeedResult(now, e, status, scores)).Ok? <==> accepted)
      && (accepted ==> Step(db, cfg, FeedResult(now, e, status, scores)) == SettleEvent(db, e, status, scores))
      && (!accepted ==> Exec(db, cfg, FeedResult(now, e, status, scores)) == db)
  {
    hide ApplyPlan, PlanOf;
  }

  /** The worker lists exactly the started feed events that are still open. */
  lemma ListedForSettlement(events: seq<Event>, now: int, e: nat)
    ensures e in Where(events, Workers.Awaiting(now))
       <==> e < |events| && events[e].source == SourceOddsAPI && StillOpen(events[e]) && events[e].startsAt < now
  {
    if e < |events| && events[e].source == SourceOddsAPI && StillOpen(events[e]) && events[e].startsAt < now {
      assert Workers.Awaiting(now)(events[e]);
    }
  }

  /** Quotes are written for upcoming feed events only. */
  lemma FeedOddsExactlyWhen(db: Db, cfg: Config, e: nat, quotes: Option<seq<OddsSync.ApiMarket>>)
    ensures Exec(db, cfg, FeedOdds(e, quotes))
         == if e < |db.cat.events| && db.cat.events[e].source == SourceOddsAPI && db.cat.events[e].status == EventUpcoming
            then db.(cat := OddsSync.ApplyEvent(db.cat, e, quotes).cat) else db
  {
    hide OddsSync.ApplyEvent;
  }

  // ---------- going live ----------

  /** Only an upcoming manual match goes live; then its status and its markets' statuses move and nothing else. */
  lemma GoLiveExactlyWhen(c: Catalogue, e: nat, status: EventStatus)
    ensures var r := SetMatchStatus(c, e, status);
      && (r.Ok? <==> status == EventLive && e < |c.events| && c.events[e].source == SourceManual && c.events[e].status == EventUpcoming)
      && (r.Ok? ==>
            && r.value.outcomes == c.outcomes && |r.value.events| == |c.events| && |r.value.markets| == |c.markets|
            && (forall i :: 0 <= i < |c.events| ==>
                  r.value.events[i] == if i == e then c.events[i].(status := EventLive) else c.events[i])
            && (forall m :: 0 <= m < |c.markets| ==>
                  r.value.markets[m] == if c.markets[m].eventId == e then c.markets[m].(status := MarketSuspended) else c.markets[m]))
  {
  }

  // ---------- editing ----------

  lemma OneEditExactlyWhen(c: Catalogue, mid: Catalogue, edit: OutcomeEdit)
    requires mid.events == c.events && mid.markets == c.markets && |mid.outcomes| == |c.outcomes|
    ensures UpdateOdds(mid, edit.id, edit.odds).Ok? <==> Editable(c, edit)
    ensures UpdateOdds(mid, edit.id, edit.odds).Ok? ==>
      var next := UpdateOdds(mid, edit.id, edit.odds).value;
      next.events == c.events && next.markets == c.markets && |next.outcomes| == |c.outcomes|
  {
    hide StoredOdds;
  }

  lemma {:induction false} EditOutcomesExactlyWhen(c: Catalogue, edits: seq<OutcomeEdit>)
    ensures EditOutcomes(c, edits).Ok?
       <==> forall i :: 0 <= i < |edits| ==> Editable(c, edits[i])
    ensures EditOutcomes(c, edits).Ok? ==>
      var next := EditOutcomes(c, edits).value; next.events == c.events && next.markets == c.markets && |next.outcomes| == |c.outcomes|
  {
    if |edits| > 0 {
      var front, last := edits[..|edits| - 1], edits[|edits| - 1];
      EditOutcomesExactlyWhen(c, front);
      assert forall i :: 0 <= i < |front| ==> edits[i] == front[i];
      if EditOutcomes(c, front).Ok? {
        OneEditExactlyWhen(c, EditOutcomes(c, front).value, last);
      } else {
        assert exists i :: 0 <= i < |front| && !Editable(c, edits[i]);
      }
      hide UpdateOdds, Editable;
    }
  }

  /** The outcome exists and the price, if one is given, can be stored. */
  predicate Editable(c: Catalogue, edit: OutcomeEdit) {
    edit.id < |c.outcomes| && (edit.odds.Some? ==> StoredOdds(edit.odds.value).Some?)
  }

  /** An edit is accepted for an upcoming event of the source whose outcomes it can edit; of the event it moves the start alone. */
  lemma EditExactlyWhen(c: Catalogue, source: Source, e: nat, startsAt: Option<int>, edits: seq<OutcomeEdit>)
    ensures var r := EditDetails(c, source, e, startsAt, edits);
      && (r.Ok? <==> e < |c.events| && c.events[e].source == source && c.events[e].status == EventUpcoming
                     && forall i :: 0 <= i < |edits| ==> Editable(c, edits[i]))
      && (r.Ok? ==>
            && r.value.markets == c.markets && |r.value.events| == |c.events|
            && r.value.events[e] == c.events[e].(startsAt := if startsAt.Some? then startsAt.value else c.events[e].startsAt)
            && forall i :: 0 <= i < |c.events| && i != e ==> r.value.events[i] == c.events[i])
  {
    hide StoredOdds, EditOutcomes;
    if e < |c.events| {
      var moved := if startsAt.Some? then c.events[e].(startsAt := startsAt.value) else c.events[e];
      var at := c.(events := c.events[e := moved]);
      EditOutcomesExactlyWhen(at, edits);
      assert forall i :: 0 <= i < |edits| ==> (Editable(at, edits[i]) <==> Editable(c, edits[i]));
    }
  }

  /** EditEvent edits custom events and EditMatch manual ones, both only with prices above 1.0 and the latter in a known league. */
  lemma EditCallsExactlyWhen(db: Db, cfg: Config, e: nat, leagueFound: bool, startsAt: Option<int>, edits: seq<OutcomeEdit>)
    ensures var custom, manual := EditDetails(db.cat, SourceCustom, e, startsAt, edits), EditDetails(db.cat, SourceManual, e, startsAt, edits);
      && Exec(db, cfg, EditCustom(e, false, startsAt, edits))
         == (if PricesAboveOne(edits) && custom.Ok? then db.(cat := custom.value) else db)
      && Exec(db, cfg, EditMatch(e, false, leagueFound, startsAt, edits))
         == (if PricesAboveOne(edits) && leagueFound && manual.Ok? then db.(cat := manual.value) else db)
  {
    EditExactlyWhen(db.cat, SourceManual, e, startsAt, edits);
    EditExactlyWhen(db.cat, SourceManual, e, startsAt, []);
    hide EditDetails, Editable;
  }
}
