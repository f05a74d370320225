/** A small database that service calls reach: two users, two custom events with two outcomes each, and four bets. */
module Samples {
  import opened Sums
  import opened Domain
  import opened BankOps
  import opened CatalogueOps
  import opened Service
  import Runs
  import Stranding

  const CFG := Config(100, 1, 50)
  const YES_OR_NO := CustomInput("Who wins?", Some(1000),
                                 [CustomOutcomeInput(Some("yes"), Some(2.0)), CustomOutcomeInput(Some("no"), Some(2.0))])
  const CUSTOM := Event(SourceCustom, None, 1000, EventUpcoming, NoScores)

  /** The catalogue with one more such event, and its market and outcomes at 2.0. */
  function WithEvent(c: Catalogue): Catalogue {
    var m := |c.markets|;
    Catalogue(c.events + [CUSTOM], c.markets + [Market(|c.events|, MarketCustom, None, MarketOpen)],
              c.outcomes + [Outcome(m, OutcomeOpt(1), 2000, None), Outcome(m, OutcomeOpt(2), 2000, None)])
  }

  lemma NoOutcomeYet(c: Catalogue, code: OutcomeCode)
    requires Sane(c)
    ensures forall i :: 0 <= i < |c.outcomes| ==> !Keyed(|c.markets|, code)(c.outcomes[i])
  {
    forall i | 0 <= i < |c.outcomes| ensures !Keyed(|c.markets|, code)(c.outcomes[i]) {
      assert SaneOutcome(c, i);
    }
  }

  lemma BothAreAdded(c: Catalogue, outcomes: seq<OutcomeInput>)
    requires Sane(c) && outcomes == [OutcomeInput(OutcomeOpt(1), "yes", 2.0), OutcomeInput(OutcomeOpt(2), "no", 2.0)]
    ensures var m := |c.markets|;
            var next := c.(markets := c.markets + [Market(|c.events|, MarketCustom, None, MarketOpen)], events := c.events + [CUSTOM]);
      AddOutcomes(next, m, outcomes) == Ok(WithEvent(c))
  {
    var m := |c.markets|;
    var next := c.(markets := c.markets + [Market(|c.events|, MarketCustom, None, MarketOpen)], events := c.events + [CUSTOM]);
    var one := next.(outcomes := c.outcomes + [Outcome(m, OutcomeOpt(1), 2000, None)]);
    NoOutcomeYet(c, OutcomeOpt(1));
    NoOutcomeYet(c, OutcomeOpt(2));
    Stranding.TwoIsStored();
    hide UpsertOutcome, StoredOdds, Sane;
    Stranding.NewOutcome(next, m, OutcomeOpt(1), 2.0, 2000);
    Stranding.NewOutcome(one, m, OutcomeOpt(2), 2.0, 2000);
    assert outcomes[..1][..0] == [] && outcomes[..1][0] == outcomes[0];
    assert AddOutcomes(next, m, outcomes[..1]) == Ok(one);
    assert one.outcomes + [Outcome(m, OutcomeOpt(2), 2000, None)] == WithEvent(c).outcomes;
  }

  /** Creating the event does that. */
  lemma EventIsCreated(c: Catalogue)
    requires Sane(c)
    ensures CreateCustomEvent(c, YES_OR_NO) == Ok(WithEvent(c))
  {
    assert ValidCustom(YES_OR_NO);
    BothAreAdded(c, CustomOutcomes(YES_OR_NO));
    hide AddOutcomes, Sane;
  }

  lemma EventIsSane(c: Catalogue)
    requires Sane(c)
    ensures Sane(WithEvent(c))
  {
    var m := |c.markets|;
    var next := Catalogue(c.events + [CUSTOM], c.markets + [Market(|c.events|, MarketCustom, None, MarketOpen)], c.outcomes);
    MoreEventsKeepSane(c, c.(events := next.events));
    InsertMarketKeepsSane(c.(events := next.events), |c.events|, MarketCustom, None);
    var one := next.(outcomes := c.outcomes + [Outcome(m, OutcomeOpt(1), 2000, None)]);
    NoOutcomeYet(c, OutcomeOpt(1));
    NoOutcomeYet(c, OutcomeOpt(2));
    hide Sane;
    AppendOutcomeKeepsSane(next, Outcome(m, OutcomeOpt(1), 2000, None));
    AppendOutcomeKeepsSane(one, Outcome(m, OutcomeOpt(2), 2000, None));
    assert one.outcomes + [Outcome(m, OutcomeOpt(2), 2000, None)] == WithEvent(c).outcomes;
  }

  const CAT := WithEvent(WithEvent(EMPTY.cat))

  /** Both custom events are open at 2.0 on both of their outcomes. */
  predicate BothOpen(c: Catalogue) {
    && |c.events| == |c.markets| == 2 && |c.outcomes| == 4
    && (forall e :: 0 <= e < 2 ==> c.events[e] == CUSTOM)
    && (forall m :: 0 <= m < 2 ==> c.markets[m] == Market(m, MarketCustom, None, MarketOpen))
    && (forall o :: 0 <= o < 4 ==> c.outcomes[o] == Outcome(o / 2, OutcomeOpt(o % 2 + 1), 2000, None))
  }

  lemma TwoAreOpen()
    ensures BothOpen(CAT)
  {
  }

  lemma TwoEventsAreCreated()
    ensures CreateCustomEvent(EMPTY.cat, YES_OR_NO) == Ok(WithEvent(EMPTY.cat))
    ensures CreateCustomEvent(WithEvent(EMPTY.cat), YES_OR_NO) == Ok(CAT)
    ensures BothOpen(CAT) && Sane(CAT)
  {
    TwoAreOpen();
    SaneAtFirst();
    hide Sane, CreateCustomEvent, WithEvent, BothOpen;
    EventIsCreated(EMPTY.cat);
    EventIsSane(EMPTY.cat);
    EventIsCreated(WithEvent(EMPTY.cat));
    EventIsSane(WithEvent(EMPTY.cat));
  }

  // ---------- users and bets ----------

  lemma Registers(db: Db, email: string)
    requires Where(db.bank.users, HasEmail(Some(email))) == [] && Runs.Inv(db, CFG)
    ensures var next := Exec(db, CFG, Register(email));
      next.cat == db.cat && next.bank.bets == db.bank.bets && next.bank.users == db.bank.users + [User(Some(email))]
      && next.bank.wallets == db.bank.wallets[|db.bank.users| := 100]
  {
    var u := |db.bank.users|;
    assert u !in db.bank.wallets;
    assert db.bank.wallets[u := 0][u := 100] == db.bank.wallets[u := 100];
    hide Where, HasEmail, Runs.Inv;
  }

  lemma CreatesEvent(db: Db)
    requires Sane(db.cat)
    ensures Exec(db, CFG, NewCustom(YES_OR_NO)) == db.(cat := WithEvent(db.cat))
  {
    EventIsCreated(db.cat);
    hide CreateCustomEvent, Sane, WithEvent;
  }

  function Ten(u: nat, o: nat): Bet {
    Bet(u, o, o / 2, 10, 2000, 20, BetPending)
  }

  /** A bet of ten on one of the open outcomes. */
  lemma Places(db: Db, u: nat, o: nat)
    requires db.cat == CAT && BothOpen(CAT) && o < 4 && u in db.bank.wallets && db.bank.wallets[u] >= 10
    ensures var next := Exec(db, CFG, Place(0, u, o, 10));
      && next.cat == CAT && next.bank.bets == db.bank.bets + [Ten(u, o)] && next.bank.users == db.bank.users
      && next.bank.wallets == db.bank.wallets[u := db.bank.wallets[u] - 10]
  {
    hide CAT;
  }

  const USERS := [Register("a"), Register("b"), NewCustom(YES_OR_NO), NewCustom(YES_OR_NO)]
  const BETS := [Ten(0, 0), Ten(1, 0), Ten(1, 2), Ten(0, 2)]
  const OPS := USERS + [Place(0, 0, 0, 10), Place(0, 1, 0, 10), Place(0, 1, 2, 10), Place(0, 0, 2, 10)]

  lemma UsersAreReached()
    ensures var db := Run(EMPTY, CFG, USERS);
      db.cat == CAT && db.bank.bets == [] && db.bank.wallets == map[0 := 100, 1 := 100] && BothOpen(CAT)
  {
    TwoEventsAreCreated();
    Runs.EmptyIsInv(CFG);
    var one := Exec(EMPTY, CFG, Register("a"));
    Registers(EMPTY, "a");
    Runs.StepKeepsInv(EMPTY, CFG, Register("a"));
    assert one.bank.users == [User(Some("a"))] && !HasEmail(Some("b"))(User(Some("a")));
    WhereNone(one.bank.users, HasEmail(Some("b")));
    hide Exec, Where, Sane, Runs.Inv, CreateCustomEvent;
    Registers(one, "b");
    var two := Exec(one, CFG, Register("b"));
    assert Sane(EMPTY.cat) by {
      SaneAtFirst();
    }
    CreatesEvent(two);
    EventIsSane(EMPTY.cat);
    var three := two.(cat := WithEvent(EMPTY.cat));
    CreatesEvent(three);
    RunOfFour(EMPTY, CFG, Register("a"), Register("b"), NewCustom(YES_OR_NO), NewCustom(YES_OR_NO));
  }

  lemma SaneAtFirst()
    ensures Sane(EMPTY.cat)
  {
  }

  /** The bets are on the first outcome of each event, in opposite order of users. */
  lemma BetsAreReached()
    ensures var db := Run(EMPTY, CFG, OPS);
      db.cat == CAT && BothOpen(CAT) && db.bank.bets == BETS && Runs.Inv(db, CFG)
  {
    UsersAreReached();
    Runs.ReachableKeepsInv(CFG, OPS);
    hide Exec, Run, CAT, Runs.Inv, BothOpen;
    var db := Run(EMPTY, CFG, USERS);
    Places(db, 0, 0);
    var one := Exec(db, CFG, Place(0, 0, 0, 10));
    Places(one, 1, 0);
    var two := Exec(one, CFG, Place(0, 1, 0, 10));
    Places(two, 1, 2);
    var three := Exec(two, CFG, Place(0, 1, 2, 10));
    Places(three, 0, 2);
    RunOfFour(db, CFG, Place(0, 0, 0, 10), Place(0, 1, 0, 10), Place(0, 1, 2, 10), Place(0, 0, 2, 10));
    RunAppend(EMPTY, CFG, USERS, [Place(0, 0, 0, 10), Place(0, 1, 0, 10), Place(0, 1, 2, 10), Place(0, 0, 2, 10)]);
    assert [] + [BETS[0]] + [BETS[1]] + [BETS[2]] + [BETS[3]] == BETS;
  }
}
