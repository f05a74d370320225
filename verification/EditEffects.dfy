/** What an edit of an event changes, and when it reaches outcomes of other events. */
module EditEffects {
  import opened Domain
  import opened CatalogueOps
  import opened Settlement
  import opened Service
  import Samples

  /** The price the edits leave on an outcome, None when no edit prices it. */
  function LastPrice(edits: seq<OutcomeEdit>, o: nat): Option<int> {
    if |edits| == 0 then None
    else
      var last := edits[|edits| - 1];
      if last.id == o && last.odds.Some? then StoredOdds(last.odds.value) else LastPrice(edits[..|edits| - 1], o)
  }

  function WithPrice(oc: Outcome, price: Option<int>): Outcome {
    if price.Some? then oc.(odds := price.value) else oc
  }

  /** Accepted edits reprice exactly the outcomes they name a price for, whatever event those belong to. */
  lemma {:induction false} EditsReprice(c: Catalogue, edits: seq<OutcomeEdit>)
    requires EditOutcomes(c, edits).Ok?
    ensures var next := EditOutcomes(c, edits).value;
      && next.events == c.events && next.markets == c.markets && |next.outcomes| == |c.outcomes|
      && forall o :: 0 <= o < |c.outcomes| ==> next.outcomes[o] == WithPrice(c.outcomes[o], LastPrice(edits, o))
  {
    hide StoredOdds;
    if |edits| > 0 {
      EditsReprice(c, edits[..|edits| - 1]);
    }
  }

  /** No outcome of another event is changed. */
  predicate StaysHome(c: Catalogue, next: Catalogue, e: nat)
    requires |next.outcomes| == |c.outcomes|
  {
    forall o :: 0 <= o < |c.outcomes| && !Affects(c, e, o) ==> next.outcomes[o] == c.outcomes[o]
  }

  /** Every price the edits leave on another event's outcome is the price it has already. */
  predicate NamesHome(c: Catalogue, e: nat, edits: seq<OutcomeEdit>) {
    forall o :: 0 <= o < |c.outcomes| && !Affects(c, e, o) ==>
      LastPrice(edits, o) == None || LastPrice(edits, o) == Some(c.outcomes[o].odds)
  }

  lemma EditedOutcomes(c: Catalogue, source: Source, e: nat, startsAt: Option<int>, edits: seq<OutcomeEdit>)
    requires EditDetails(c, source, e, startsAt, edits).Ok?
    ensures var next := EditDetails(c, source, e, startsAt, edits).value;
      && |next.outcomes| == |c.outcomes|
      && forall o :: 0 <= o < |c.outcomes| ==> next.outcomes[o] == WithPrice(c.outcomes[o], LastPrice(edits, o))
  {
    hide WithPrice, LastPrice, EditOutcomes;
    var moved := if startsAt.Some? then c.events[e].(startsAt := startsAt.value) else c.events[e];
    EditsReprice(c.(events := c.events[e := moved]), edits);
  }

  /**
   * An accepted edit leaves the outcomes of other events alone if and only if it names no other price for one of them;
   * nothing in the code checks that.
   */
  lemma EditStaysHomeExactlyWhen(c: Catalogue, source: Source, e: nat, startsAt: Option<int>, edits: seq<OutcomeEdit>)
    requires EditDetails(c, source, e, startsAt, edits).Ok?
    ensures var next := EditDetails(c, source, e, startsAt, edits).value;
      |next.outcomes| == |c.outcomes| && (StaysHome(c, next, e) <==> NamesHome(c, e, edits))
  {
    EditedOutcomes(c, source, e, startsAt, edits);
    var next := EditDetails(c, source, e, startsAt, edits).value;
    hide EditDetails, LastPrice;
    if StaysHome(c, next, e) {
      forall o | 0 <= o < |c.outcomes| && !Affects(c, e, o)
        ensures LastPrice(edits, o) == None || LastPrice(edits, o) == Some(c.outcomes[o].odds)
      {
        assert next.outcomes[o] == c.outcomes[o];
      }
    }
  }

  /** In particular an edit whose priced outcomes all belong to the event stays home. */
  lemma {:induction false} OwnOutcomesStayHome(c: Catalogue, e: nat, edits: seq<OutcomeEdit>, o: nat)
    requires forall i :: 0 <= i < |edits| && edits[i].odds.Some? ==> Affects(c, e, edits[i].id)
    requires !Affects(c, e, o)
    ensures LastPrice(edits, o) == None
  {
    if |edits| > 0 {
      OwnOutcomesStayHome(c, e, edits[..|edits| - 1], o);
    }
  }

  const OTHERS_OUTCOME := [OutcomeEdit(2, Some(3.0))]

  lemma EditIsAccepted(c: Catalogue)
    requires Samples.BothOpen(c)
    ensures ValidEdits(OTHERS_OUTCOME) && !Affects(c, 0, 2)
    ensures EditDetails(c, SourceCustom, 0, None, OTHERS_OUTCOME) == Ok(c.(outcomes := c.outcomes[2 := c.outcomes[2].(odds := 3000)]))
  {
    assert StoredOdds(3.0) == Some(3000);
    hide StoredOdds;
    assert OTHERS_OUTCOME[..0] == [] && EditOutcomes(c, OTHERS_OUTCOME[..0]) == Ok(c);
    assert c.events[0 := c.events[0]] == c.events;
  }

  /** After two custom events are created, one accepted edit of the first reprices an outcome of the second. */
  lemma EditCanLeaveHome()
    ensures var db := Run(EMPTY, Samples.CFG, Samples.USERS);
            var next := Exec(db, Samples.CFG, EditCustom(0, false, None, OTHERS_OUTCOME));
      && |next.cat.outcomes| == |db.cat.outcomes| == 4 && !Affects(db.cat, 0, 2)
      && db.cat.outcomes[2].odds == 2000 && next.cat.outcomes[2].odds == 3000
  {
    Samples.UsersAreReached();
    hide Run, Samples.CAT, EditDetails;
    EditIsAccepted(Run(EMPTY, Samples.CFG, Samples.USERS).cat);
  }
}
