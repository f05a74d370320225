/**
 * A bet freezes its price but not its line: a totals bet is decided by the line its market has when the event is settled.
 */
module LineDrift {
  import opened Domain
  import opened Payout
  import opened BankOps
  import opened Ledger
  import opened Plans
  import opened CatalogueOps
  import opened Settlement
  import opened Lifecycle
  import opened Service
  import opened Runs

  // ---------- rows keep what they are ----------

  /** Every market and outcome is still the same market and outcome, whatever its line, price or status. */
  ghost predicate SameRows(c: Catalogue, later: Catalogue) {
    && |c.markets| <= |later.markets| && |c.outcomes| <= |later.outcomes|
    && (forall m :: 0 <= m < |c.markets| ==> SameMarket(c, later, m))
    && (forall o :: 0 <= o < |c.outcomes| ==> SameOutcome(c, later, o))
  }

  predicate SameMarket(c: Catalogue, later: Catalogue, m: nat)
    requires m < |c.markets| <= |later.markets|
  {
    later.markets[m].eventId == c.markets[m].eventId && later.markets[m].kind == c.markets[m].kind
  }

  predicate SameOutcome(c: Catalogue, later: Catalogue, o: nat)
    requires o < |c.outcomes| <= |later.outcomes|
  {
    later.outcomes[o].marketId == c.outcomes[o].marketId && later.outcomes[o].code == c.outcomes[o].code
  }

  lemma EvolvesSameRows(c: Catalogue, next: Catalogue, e: nat)
    requires Evolves(c, next, e)
    ensures SameRows(c, next)
  {
    forall m | 0 <= m < |c.markets| ensures SameMarket(c, next, m) {
      assert MarketEvolves(c, next, e, m);
    }
    forall o | 0 <= o < |c.outcomes| ensures SameOutcome(c, next, o) {
      assert OutcomeEvolves(c, next, e, o);
    }
  }

  lemma ClosedSameRows(c: Catalogue, close: Close)
    requires close.e < |c.events|
    ensures SameRows(c, Closed(c, close.e, close.final, close.d, close.scores))
  {
    hide OutcomeVerdict, MarketVerdict;
  }

  lemma SameRowsTransitive(a: Catalogue, b: Catalogue, c: Catalogue)
    requires SameRows(a, b) && SameRows(b, c)
    ensures SameRows(a, c)
  {
    forall m | 0 <= m < |a.markets| ensures SameMarket(a, c, m) {
      assert SameMarket(a, b, m) && SameMarket(b, c, m);
    }
    forall o | 0 <= o < |a.outcomes| ensures SameOutcome(a, c, o) {
      assert SameOutcome(a, b, o) && SameOutcome(b, c, o);
    }
  }

  lemma StepKeepsRows(db: Db, cfg: Config, op: Op)
    requires Inv(db, cfg)
    ensures SameRows(db.cat, Exec(db, cfg, op).cat)
  {
    hide Sane, InStep, BankInv, BetsFit, Settle, CloseOf, StepCatalogue, PlaceBet, AdjustBalance, LoginOrRegister, BankOps.Register,
      Evolves, Closed;
    if Step(db, cfg, op).Ok? {
      if Closing(op) {
        CloseIsSound(db.cat, op);
        CloseSettles(db, cfg, CloseOf(db.cat, op).value);
        ClosedSameRows(db.cat, CloseOf(db.cat, op).value);
      } else if CatalogueOnly(op) {
        CatalogueStepEvolves(db.cat, op);
        EvolvesSameRows(db.cat, StepCatalogue(db.cat, op).value, Touched(db.cat, op));
      } else if op.Place? {
        PlaceIsLater(db, cfg, op.now, op.user, op.outcome, op.stake);
      }
    }
  }

  lemma {:induction false} RunKeepsRows(db: Db, cfg: Config, ops: seq<Op>)
    requires Inv(db, cfg)
    ensures SameRows(db.cat, Run(db, cfg, ops).cat)
    decreases |ops|
  {
    hide Inv, Exec;
    if |ops| > 0 {
      var next := Exec(db, cfg, ops[0]);
      StepKeepsRows(db, cfg, ops[0]);
      StepKeepsInv(db, cfg, ops[0]);
      RunKeepsRows(next, cfg, ops[1..]);
      hide SameRows;
      SameRowsTransitive(db.cat, next.cat, Run(next, cfg, ops[1..]).cat);
    }
  }

  // ---------- which line decides ----------

  /** Above, on or below the line. */
  function Side(home: int, away: int, line: int): int {
    if 100 * (home + away) > line then 1 else if 100 * (home + away) == line then 0 else -1
  }

  /** Two lines call a score alike: over and under by the side it falls on, any other code by the push alone. */
  predicate CallAlike(code: OutcomeCode, home: int, away: int, x: int, y: int) {
    if code == OutcomeOver || code == OutcomeUnder then Side(home, away, x) == Side(home, away, y)
    else Side(home, away, x) == 0 <==> Side(home, away, y) == 0
  }

  lemma VerdictsAgreeExactlyWhen(code: OutcomeCode, home: int, away: int, x: int, y: int)
    ensures TotalsVerdict(code, home, away, Some(x)) == TotalsVerdict(code, home, away, Some(y)) <==> CallAlike(code, home, away, x, y)
  {
  }

  function LineOf(c: Catalogue, o: nat): Option<int>
    requires o < |c.outcomes| && c.outcomes[o].marketId < |c.markets|
  {
    c.markets[c.outcomes[o].marketId].line
  }

  /** The bet at b is a pending bet on the totals outcome o. */
  predicate TotalsBet(db: Db, b: nat, o: nat) {
    && b < |db.bank.bets| && db.bank.bets[b].status == BetPending && db.bank.bets[b].outcomeId == o
    && o < |db.cat.outcomes| && db.cat.outcomes[o].marketId < |db.cat.markets|
    && db.cat.markets[db.cat.outcomes[o].marketId].kind == MarketTotals
  }

  lemma ItsVerdict(db: Db, cfg: Config, close: Close, b: nat, o: nat)
    requires Inv(db, cfg) && TotalsBet(db, b, o) && close.d.ByScore? && close.e == db.bank.bets[b].eventId < |db.cat.events|
    ensures var v := Verdicts(db.cat, close.e, close.d);
      o in v && v[o] == TotalsVerdict(db.cat.outcomes[o].code, close.d.home, close.d.away, LineOf(db.cat, o))
  {
    hide BankInv, InStep, Sane, TotalsVerdict;
    assert BetFits(db.cat, db.bank.bets[b]);
    assert Affects(db.cat, close.e, o);
  }

  /** A settlement by score decides a totals bet by the line the market has then. */
  lemma LineAtSettlementDecides(db: Db, cfg: Config, close: Close, b: nat, o: nat)
    requires Inv(db, cfg) && TotalsBet(db, b, o) && close.d.ByScore? && close.e == db.bank.bets[b].eventId < |db.cat.events|
    ensures var r := Settle(db, close.e, close.final, close.d, close.scores);
      && r.Ok? && b < |r.value.bank.bets|
      && r.value.bank.bets[b].status
         == BetStatusFromResult(TotalsVerdict(db.cat.outcomes[o].code, close.d.home, close.d.away, LineOf(db.cat, o)))
  {
    ItsVerdict(db, cfg, close, b, o);
    CloseSettles(db, cfg, close);
    hide Inv, Settle, TotalsVerdict, Verdicts, Closed;
  }

  lemma PlacedIsTotalsBet(db: Db, cfg: Config, now: int, u: nat, o: nat, stake: int)
    requires PlaceBet(db, cfg, now, u, o, stake).Ok? && db.cat.markets[db.cat.outcomes[o].marketId].kind == MarketTotals
    ensures var next := PlaceBet(db, cfg, now, u, o, stake).value; next.cat == db.cat && TotalsBet(next, |db.bank.bets|, o)
  {
    hide ComputePotentialPayout;
  }

  /** The accepted call settles event e by this score. */
  predicate SettlesByScore(c: Catalogue, op: Op, e: nat, home: int, away: int) {
    Closing(op) && CloseOf(c, op).Ok? && CloseOf(c, op).value.e == e && CloseOf(c, op).value.d == ByScore(home, away)
  }

  lemma ScoreSettles(db: Db, cfg: Config, op: Op, b: nat, o: nat, home: int, away: int)
    requires Inv(db, cfg) && TotalsBet(db, b, o) && SettlesByScore(db.cat, op, db.bank.bets[b].eventId, home, away)
    ensures b < |Exec(db, cfg, op).bank.bets|
    ensures Exec(db, cfg, op).bank.bets[b].status
         == BetStatusFromResult(TotalsVerdict(db.cat.outcomes[o].code, home, away, LineOf(db.cat, o)))
  {
    hide Inv, TotalsVerdict, LineOf, CloseOf;
    CloseIsSound(db.cat, op);
    LineAtSettlementDecides(db, cfg, CloseOf(db.cat, op).value, b, o);
  }

  lemma OutcomesHaveLines(db: Db, cfg: Config, b: nat, o: nat)
    requires Inv(db, cfg) && TotalsBet(db, b, o)
    ensures LineOf(db.cat, o).Some?
  {
    hide Inv;
    EveryTotalsBetHasALine(db, cfg, b);
  }

  /** Where a placed totals bet stands after a run, if nothing has decided it. */
  lemma StillTotalsBet(db: Db, cfg: Config, b: nat, o: nat, ops: seq<Op>)
    requires Inv(db, cfg) && TotalsBet(db, b, o)
    ensures var later := Run(db, cfg, ops);
      && Inv(later, cfg) && b < |later.bank.bets| && FrozenBet(db.bank.bets[b], later.bank.bets[b])
      && (later.bank.bets[b].status == BetPending ==> TotalsBet(later, b, o))
      && o < |later.cat.outcomes| && later.cat.outcomes[o].code == db.cat.outcomes[o].code
  {
    hide Inv, Run;
    RunIsLater(db, cfg, ops);
    RunKeepsInv(db, cfg, ops);
    RunKeepsRows(db, cfg, ops);
    assert SameOutcome(db.cat, Run(db, cfg, ops).cat, o) && SameMarket(db.cat, Run(db, cfg, ops).cat, db.cat.outcomes[o].marketId);
  }

  /**
   * A totals bet, whatever happens between its placing and its settlement by score: the line its market has at the
   * settlement decides it, and that is the verdict of the line it was placed at if and only if both call the score alike.
   */
  lemma LineOfPlacingDecidesExactlyWhen(db: Db, cfg: Config, b: nat, o: nat, ops: seq<Op>, op: Op, home: int, away: int)
    requires Inv(db, cfg) && TotalsBet(db, b, o)
    requires var later := Run(db, cfg, ops);
      && b < |later.bank.bets| && later.bank.bets[b].status == BetPending
      && SettlesByScore(later.cat, op, db.bank.bets[b].eventId, home, away)
    ensures var later := Run(db, cfg, ops); var bets := Exec(later, cfg, op).bank.bets;
      && TotalsBet(later, b, o) && LineOf(db.cat, o).Some? && LineOf(later.cat, o).Some? && b < |bets|
      && bets[b].status == BetStatusFromResult(TotalsVerdict(db.cat.outcomes[o].code, home, away, LineOf(later.cat, o)))
      && (bets[b].status == BetStatusFromResult(TotalsVerdict(db.cat.outcomes[o].code, home, away, LineOf(db.cat, o)))
          <==> CallAlike(db.cat.outcomes[o].code, home, away, LineOf(db.cat, o).value, LineOf(later.cat, o).value))
  {
    hide Inv, Run, TotalsVerdict, LineOf, CallAlike, SettlesByScore;
    var later := Run(db, cfg, ops);
    StillTotalsBet(db, cfg, b, o, ops);
    OutcomesHaveLines(db, cfg, b, o);
    OutcomesHaveLines(later, cfg, b, o);
    assert later.bank.bets[b].eventId == db.bank.bets[b].eventId;
    ScoreSettles(later, cfg, op, b, o, home, away);
    VerdictsAgreeExactlyWhen(db.cat.outcomes[o].code, home, away, LineOf(db.cat, o).value, LineOf(later.cat, o).value);
  }
}
