/** EventService: the batched feed page against the one-event query. */
module EventTree {
  import opened Sums
  import opened Domain
  import opened Plans

  datatype MarketTree = MarketTree(market: nat, outcomes: seq<nat>)
  datatype Tree = Tree(event: nat, markets: seq<MarketTree>)

  // ---------- the simple form ----------

  function MarketTreesOf(c: Catalogue, ids: seq<nat>): seq<MarketTree> {
    seq(|ids|, i requires 0 <= i < |ids| => MarketTree(ids[i], OutcomesOf(c, ids[i])))
  }

  function TreeOf(c: Catalogue, e: nat): Tree {
    Tree(e, MarketTreesOf(c, MarketsOf(c, e)))
  }

  /** GetEvent: one query for the markets, one per market for its outcomes. */
  method GetEvent(c: Catalogue, e: nat) returns (r: Try<Tree>)
    ensures r == if e < |c.events| then Ok(TreeOf(c, e)) else Err(ErrNotFound)
  {
    if e >= |c.events| {
      return Err(ErrNotFound);
    }
    var ids := MarketsOf(c, e);
    var trees: seq<MarketTree> := [];
    for i := 0 to |ids|
      invariant trees == MarketTreesOf(c, ids)[..i]
    {
      trees := trees + [MarketTree(ids[i], OutcomesOf(c, ids[i]))];
    }
    assert trees == MarketTreesOf(c, ids);
    return Ok(Tree(e, trees));
  }

  // ---------- the batch queries ----------

  /** markets.GetByEvents: event_id = ANY(wanted) ORDER BY event_id, id, over events below n. */
  function MarketsOfAll(c: Catalogue, wanted: seq<nat>, n: nat): seq<nat> {
    if n == 0 then [] else MarketsOfAll(c, wanted, n - 1) + if n - 1 in wanted then MarketsOf(c, n - 1) else []
  }

  /** outcomes.GetByMarkets: market_id = ANY(wanted) ORDER BY market_id, id, over markets below n. */
  function OutcomesOfAll(c: Catalogue, wanted: seq<nat>, n: nat): seq<nat> {
    if n == 0 then [] else OutcomesOfAll(c, wanted, n - 1) + if n - 1 in wanted then OutcomesOf(c, n - 1) else []
  }

  function BelongsToEvent(c: Catalogue, e: nat): nat -> bool {
    (m: nat) => m < |c.markets| && c.markets[m].eventId == e
  }

  function BelongsToMarket(c: Catalogue, m: nat): nat -> bool {
    (o: nat) => o < |c.outcomes| && c.outcomes[o].marketId == m
  }

  lemma NothingSelected(p: nat -> bool)
    ensures Select<nat>([], p) == []
  {
  }

  lemma BatchContainsMarketsGroup(c: Catalogue, k: nat, e: nat)
    ensures Select(MarketsOf(c, k), BelongsToEvent(c, e)) == if k == e then MarketsOf(c, k) else []
  {
    hide Where, Select;
    forall i | 0 <= i < |MarketsOf(c, k)| ensures BelongsToEvent(c, e)(MarketsOf(c, k)[i]) == (k == e) {
      assert OfEvent(k)(c.markets[MarketsOf(c, k)[i]]);
    }
    SelectUniform(MarketsOf(c, k), BelongsToEvent(c, e), k == e);
  }

  /** Grouping a batch result by its event recovers that event's own query, in the same order. */
  lemma {:induction false} BatchContainsMarkets(c: Catalogue, wanted: seq<nat>, n: nat, e: nat)
    ensures Select(MarketsOfAll(c, wanted, n), BelongsToEvent(c, e)) == if e < n && e in wanted then MarketsOf(c, e) else []
  {
    hide MarketsOf, Select;
    NothingSelected(BelongsToEvent(c, e));
    if n > 0 {
      var before := Select(MarketsOfAll(c, wanted, n - 1), BelongsToEvent(c, e));
      assert before + [] == before && [] + MarketsOf(c, e) == MarketsOf(c, e);
      BatchContainsMarkets(c, wanted, n - 1, e);
      BatchContainsMarketsGroup(c, n - 1, e);
      SelectConcat(MarketsOfAll(c, wanted, n - 1), if n - 1 in wanted then MarketsOf(c, n - 1) else [], BelongsToEvent(c, e));
    }
  }

  lemma BatchContainsOutcomesGroup(c: Catalogue, k: nat, m: nat)
    ensures Select(OutcomesOf(c, k), BelongsToMarket(c, m)) == if k == m then OutcomesOf(c, k) else []
  {
    hide Where, Select;
    forall i | 0 <= i < |OutcomesOf(c, k)| ensures BelongsToMarket(c, m)(OutcomesOf(c, k)[i]) == (k == m) {
      assert InMarket(k)(c.outcomes[OutcomesOf(c, k)[i]]);
    }
    SelectUniform(OutcomesOf(c, k), BelongsToMarket(c, m), k == m);
  }

  /** Grouping a batch result by its market recovers that market's own query, in the same order. */
  lemma {:induction false} BatchContainsOutcomes(c: Catalogue, wanted: seq<nat>, n: nat, m: nat)
    ensures Select(OutcomesOfAll(c, wanted, n), BelongsToMarket(c, m)) == if m < n && m in wanted then OutcomesOf(c, m) else []
  {
    hide OutcomesOf, Select;
    NothingSelected(BelongsToMarket(c, m));
    if n > 0 {
      var before := Select(OutcomesOfAll(c, wanted, n - 1), BelongsToMarket(c, m));
      assert before + [] == before && [] + OutcomesOf(c, m) == OutcomesOf(c, m);
      BatchContainsOutcomes(c, wanted, n - 1, m);
      BatchContainsOutcomesGroup(c, n - 1, m);
      SelectConcat(OutcomesOfAll(c, wanted, n - 1), if n - 1 in wanted then OutcomesOf(c, n - 1) else [], BelongsToMarket(c, m));
    }
  }

  lemma {:induction false} BatchMarketsExist(c: Catalogue, wanted: seq<nat>, n: nat)
    ensures forall i :: 0 <= i < |MarketsOfAll(c, wanted, n)| ==> MarketsOfAll(c, wanted, n)[i] < |c.markets|
    ensures forall m: nat :: m < |c.markets| && c.markets[m].eventId < n && c.markets[m].eventId in wanted ==>
      m in MarketsOfAll(c, wanted, n)
  {
    if n > 0 {
      BatchMarketsExist(c, wanted, n - 1);
      forall m: nat | m < |c.markets| && c.markets[m].eventId == n - 1 ensures m in MarketsOf(c, n - 1) {
        assert OfEvent(n - 1)(c.markets[m]);
      }
    }
  }

  lemma {:induction false} BatchOutcomesExist(c: Catalogue, wanted: seq<nat>, n: nat)
    ensures forall i :: 0 <= i < |OutcomesOfAll(c, wanted, n)| ==> OutcomesOfAll(c, wanted, n)[i] < |c.outcomes|
  {
    if n > 0 {
      BatchOutcomesExist(c, wanted, n - 1);
    }
  }

  // ---------- the batched form ----------

  function Lookup<T>(groups: map<nat, seq<T>>, key: nat): seq<T> {
    if key in groups then groups[key] else []
  }

  method GroupOutcomes(c: Catalogue, outcomes: seq<nat>) returns (groups: map<nat, seq<nat>>)
    requires forall i :: 0 <= i < |outcomes| ==> outcomes[i] < |c.outcomes|
    ensures forall m: nat :: Lookup(groups, m) == Select(outcomes, BelongsToMarket(c, m))
  {
    groups := map[];
    for i := 0 to |outcomes|
      invariant forall m: nat :: Lookup(groups, m) == Select(outcomes[..i], BelongsToMarket(c, m))
    {
      var o := outcomes[i];
      var m := c.outcomes[o].marketId;
      assert outcomes[..i + 1][..i] == outcomes[..i];
      groups := groups[m := Lookup(groups, m) + [o]];
    }
    assert outcomes[..|outcomes|] == outcomes;
  }

  /** Every event has the trees of its own markets among these, in order. */
  ghost predicate Grouped(c: Catalogue, groups: map<nat, seq<MarketTree>>, markets: seq<nat>) {
    forall e: nat :: Lookup(groups, e) == MarketTreesOf(c, Select(markets, BelongsToEvent(c, e)))
  }

  lemma NoGroups(c: Catalogue)
    ensures Grouped(c, map[], [])
  {
  }

  lemma GroupsGrow(c: Catalogue, groups: map<nat, seq<MarketTree>>, markets: seq<nat>, m: nat)
    requires m < |c.markets| && Grouped(c, groups, markets)
    ensures var e := c.markets[m].eventId;
      Grouped(c, groups[e := Lookup(groups, e) + [MarketTree(m, OutcomesOf(c, m))]], markets + [m])
  {
    hide Select, OutcomesOf;
    var e := c.markets[m].eventId;
    var next := groups[e := Lookup(groups, e) + [MarketTree(m, OutcomesOf(c, m))]];
    forall k: nat ensures Lookup(next, k) == MarketTreesOf(c, Select(markets + [m], BelongsToEvent(c, k))) {
      SelectAppend(markets, m, BelongsToEvent(c, k));
      assert Lookup(groups, k) == MarketTreesOf(c, Select(markets, BelongsToEvent(c, k)));
      assert k != e ==> Select(markets, BelongsToEvent(c, k)) + [] == Select(markets, BelongsToEvent(c, k));
    }
  }

  method GroupMarkets(c: Catalogue, markets: seq<nat>, outcomesByMarket: map<nat, seq<nat>>)
    returns (groups: map<nat, seq<MarketTree>>)
    requires forall i :: 0 <= i < |markets| ==> markets[i] < |c.markets|
    requires forall i :: 0 <= i < |markets| ==> Lookup(outcomesByMarket, markets[i]) == OutcomesOf(c, markets[i])
    ensures Grouped(c, groups, markets)
  {
    hide Select, OutcomesOf, MarketTreesOf, Lookup;
    groups := map[];
    NoGroups(c);
    assert markets[..0] == [];
    for i := 0 to |markets|
      invariant Grouped(c, groups, markets[..i])
    {
      var m := markets[i];
      var e := c.markets[m].eventId;
      assert markets[..i + 1] == markets[..i] + [m];
      GroupsGrow(c, groups, markets[..i], m);
      groups := groups[e := Lookup(groups, e) + [MarketTree(m, Lookup(outcomesByMarket, m))]];
    }
    assert markets[..|markets|] == markets;
  }

  lemma TreeFromBatch(c: Catalogue, page: seq<nat>, e: nat)
    requires e in page && e < |c.events|
    ensures Tree(e, MarketTreesOf(c, Select(MarketsOfAll(c, page, |c.events|), BelongsToEvent(c, e)))) == TreeOf(c, e)
  {
    hide MarketsOf, MarketsOfAll, Select, MarketTreesOf;
    BatchContainsMarkets(c, page, |c.events|, e);
  }

  /** outcomesByMarket, read from one batch query, is each listed market's own outcomes query. */
  method OutcomesByMarket(c: Catalogue, markets: seq<nat>) returns (groups: map<nat, seq<nat>>)
    requires forall i :: 0 <= i < |markets| ==> markets[i] < |c.markets|
    ensures forall i :: 0 <= i < |markets| ==> Lookup(groups, markets[i]) == OutcomesOf(c, markets[i])
  {
    hide OutcomesOf, OutcomesOfAll, Select, Lookup;
    var outcomes := OutcomesOfAll(c, markets, |c.markets|);
    BatchOutcomesExist(c, markets, |c.markets|);
    groups := GroupOutcomes(c, outcomes);
    forall i | 0 <= i < |markets| ensures Lookup(groups, markets[i]) == OutcomesOf(c, markets[i]) {
      BatchContainsOutcomes(c, markets, |c.markets|, markets[i]);
    }
  }

  /** marketsByEvent, read from two batch queries, completes each page event to its own tree. */
  method MarketsByEvent(c: Catalogue, page: seq<nat>) returns (groups: map<nat, seq<MarketTree>>)
    requires forall i :: 0 <= i < |page| ==> page[i] < |c.events|
    ensures forall i :: 0 <= i < |page| ==> Tree(page[i], Lookup(groups, page[i])) == TreeOf(c, page[i])
  {
    hide MarketsOf, OutcomesOf, MarketsOfAll, OutcomesOfAll, Select, TreeOf, MarketTreesOf, Lookup;
    var markets := MarketsOfAll(c, page, |c.events|);
    BatchMarketsExist(c, page, |c.events|);
    var outcomesByMarket := OutcomesByMarket(c, markets);
    groups := GroupMarkets(c, markets, outcomesByMarket);
    forall i | 0 <= i < |page| ensures Tree(page[i], Lookup(groups, page[i])) == TreeOf(c, page[i]) {
      TreeFromBatch(c, page, page[i]);
    }
  }

  /**
   * ListEvents: three queries and two maps give, for every event of the page in page order,
   * exactly the tree GetEvent builds.
   */
  method ListEvents(c: Catalogue, page: seq<nat>) returns (result: seq<Tree>)
    requires forall i :: 0 <= i < |page| ==> page[i] < |c.events|
    ensures |result| == |page|
    ensures forall i :: 0 <= i < |page| ==> result[i] == TreeOf(c, page[i])
  {
    hide TreeOf, Lookup;
    if |page| == 0 {
      return [];
    }
    var marketsByEvent := MarketsByEvent(c, page);
    result := [];
    for i := 0 to |page|
      invariant |result| == i
      invariant forall k :: 0 <= k < i ==> result[k] == TreeOf(c, page[k])
    {
      result := result + [Tree(page[i], Lookup(marketsByEvent, page[i]))];
    }
  }

  // ---------- what a tree holds ----------

  /** The tree of an event lists its markets by ascending id, all of them and no others. */
  lemma TreeHoldsMarkets(c: Catalogue, e: nat, m: nat)
    ensures var trees := TreeOf(c, e).markets;
      && TreeOf(c, e).event == e
      && ((exists i :: 0 <= i < |trees| && trees[i].market == m) <==> m < |c.markets| && c.markets[m].eventId == e)
      && forall i, j :: 0 <= i < j < |trees| ==> trees[i].market < trees[j].market
  {
    var ids := MarketsOf(c, e);
    assert forall i :: 0 <= i < |ids| ==> OfEvent(e)(c.markets[ids[i]]);
    if m < |c.markets| && c.markets[m].eventId == e {
      assert OfEvent(e)(c.markets[m]) && m in ids;
      var i :| 0 <= i < |ids| && ids[i] == m;
      assert TreeOf(c, e).markets[i].market == m;
    }
  }

  /** And under each market its outcomes by ascending id, all of them and no others. */
  lemma TreeHoldsOutcomes(c: Catalogue, e: nat, i: nat, o: nat)
    requires i < |TreeOf(c, e).markets|
    ensures var tree := TreeOf(c, e).markets[i];
      && (o in tree.outcomes <==> o < |c.outcomes| && c.outcomes[o].marketId == tree.market)
      && forall j, k :: 0 <= j < k < |tree.outcomes| ==> tree.outcomes[j] < tree.outcomes[k]
  {
    var m := MarketsOf(c, e)[i];
    if o < |c.outcomes| && c.outcomes[o].marketId == m {
      assert InMarket(m)(c.outcomes[o]);
    }
  }
}
