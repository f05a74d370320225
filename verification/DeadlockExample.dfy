/** Two settlements, each going by ascending bet id, that wait for each other, in a database that service calls reach. */
module DeadlockExample {
  import opened Domain
  import opened Plans
  import opened Settlement
  import opened Interleaving
  import opened Service
  import opened EventJobs
  import opened Crossing
  import opened Tangles
  import opened TwoClosings
  import opened Samples
  import Runs

  /** The admin names the first outcome of either event the winner. */
  const FIRST := Close(0, EventSettled, ByWinner(0), NoScores)
  const SECOND := Close(1, EventSettled, ByWinner(2), NoScores)

  lemma BothAreAccepted(c: Catalogue)
    requires BothOpen(c)
    ensures CloseOf(c, SettleCustom(0, 0)) == Ok(FIRST) && CloseOf(c, SettleCustom(1, 2)) == Ok(SECOND)
  {
  }

  lemma VerdictsOn(c: Catalogue, e: nat, o: nat)
    requires BothOpen(c) && e < 2 && (o == 0 || o == 2)
    ensures var v := Verdicts(c, e, ByWinner(2 * e)); if o == 2 * e then o in v && v[o] == ResultWon else o !in v
  {
  }

  /** The first settlement credits user 0 and then user 1, the second user 1 and then user 0. */
  lemma TheyWalk(c: Catalogue)
    requires BothOpen(c)
    ensures Walk(BETS, Verdicts(c, 0, ByWinner(0))) == [0, 1] && Walk(BETS, Verdicts(c, 1, ByWinner(2))) == [1, 0]
  {
    var first, second := Verdicts(c, 0, ByWinner(0)), Verdicts(c, 1, ByWinner(2));
    VerdictsOn(c, 0, 0);
    VerdictsOn(c, 0, 2);
    VerdictsOn(c, 1, 0);
    VerdictsOn(c, 1, 2);
    hide Verdicts, BothOpen;
    assert BETS[..4] == BETS && BETS[..4][..3] == BETS[..3] && BETS[..3][..2] == BETS[..2] && BETS[..2][..1] == BETS[..1];
    assert BETS[..1][..0] == [] && Walk([], first) == [] && Walk([], second) == [];
    assert Walk(BETS[..1], first) == [0] && Walk(BETS[..1], second) == [];
    assert Walk(BETS[..2], first) == [0, 1] && Walk(BETS[..2], second) == [];
    assert Walk(BETS[..3], first) == [0, 1] && Walk(BETS[..3], second) == [1];
  }

  lemma TheyCross()
    ensures Crosses([0, 1], [1, 0])
  {
    assert [0, 1][..1] == [0] && [1, 0][..1] == [1];
    assert CrossAt([0, 1], 1, [1, 0], 1);
  }

  /** After two users register, bet on two custom events, and an admin settles both events, the settlements can deadlock. */
  lemma SettlementsCanDeadlock()
    ensures var db := Run(EMPTY, CFG, OPS);
      && CloseOf(db.cat, SettleCustom(0, 0)) == Ok(FIRST) && CloseOf(db.cat, SettleCustom(1, 2)) == Ok(SECOND)
      && CanDeadlock(AtRest(db.bank), [JobOf(db.cat, FIRST), JobOf(db.cat, SECOND)])
  {
    BetsAreReached();
    TheyCross();
    hide Run, CAT, CanDeadlock, JobOf, Walk, Runs.Inv, Crosses, Verdicts, BothOpen;
    var db := Run(EMPTY, CFG, OPS);
    BothAreAccepted(db.cat);
    TheyWalk(db.cat);
    TwoDeadlockExactlyWhen(db, CFG, FIRST, SECOND);
  }
}
