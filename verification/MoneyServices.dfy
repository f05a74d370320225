/** The services that move money, statement by statement, against the atomic operations of BankOps and Settlement. */
module MoneyServices {
  import opened Sums
  import opened Domain
  import opened Payout
  import BankOps
  import opened Store

  /** How the body of a transaction may end, before it is committed or rolled back. */
  ghost predicate Performs<T>(spec: Try<T>, after: T, err: Option<Error>) {
    match err
    case None => spec == Ok(after)
    case Some(e) => Refused(spec, e)
  }

  /** Lock the wallet, move the balance, write the ledger row: payout, refund and signup bonus. */
  method Move(db: Database, u: nat, amount: int, kind: TxType, betId: Option<nat>) returns (err: Option<Error>)
    modifies db`wallets, db`ledger, db`faults
    ensures Performs(BankOps.Post(old(db.Money()), u, amount, kind, betId), db.Money(), err)
    ensures db.Lost() == old(db.Lost()) - LossOf(err)
  {
    var wallet := db.WalletsGetForUpdate(u);
    if wallet.Err? {
      return Some(wallet.error);
    }
    var balance := db.WalletsUpdateBalance(u, amount);
    if balance.Err? {
      return Some(balance.error);
    }
    err := db.LedgerCreate(LedgerRow(u, amount, kind, betId, balance.value));
  }

  // ---------- BettingService ----------

  /** PlaceBetResult: the stored bet, its id and the new balance. */
  datatype Placed = Placed(id: nat, bet: Bet, balance: int)

  class BettingService {
    const db: Database
    const cfg: Config

    constructor (db: Database, cfg: Config)
      ensures this.db == db && this.cfg == cfg
    {
      this.db, this.cfg := db, cfg;
    }

    /** The whole bet or nothing; the caller gets the bet as stored and the balance it left. */
    method PlaceBet(now: int, u: nat, o: nat, stake: int) returns (r: Try<Placed>)
      modifies db
      ensures Concludes(BankOps.PlaceBet(old(db.Snapshot()), cfg, now, u, o, stake),
                        old(db.Snapshot()), db.Snapshot(), ErrorOf(r))
      ensures r.Ok? ==> IsPlaced(old(db.Money()), db.Money(), u, r.value)
      ensures db.Lost() == old(db.Lost()) - LossOf(ErrorOf(r))
    {
      if stake < cfg.betMin || stake > cfg.betMax {
        return Err(ErrBetOutOfRange);
      }
      var err := db.Begin();
      if err.Some? {
        return Err(err.value);
      }
      r := PlaceInTx(now, u, o, stake);
      err := db.End(ErrorOf(r));
      if err.Some? {
        return Err(err.value);
      }
    }

    method PlaceInTx(now: int, u: nat, o: nat, stake: int) returns (r: Try<Placed>)
      requires cfg.betMin <= stake <= cfg.betMax
      modifies db`wallets, db`ledger, db`bets, db`faults
      ensures Performs(BankOps.PlaceBet(old(db.Snapshot()), cfg, now, u, o, stake), db.Snapshot(), ErrorOf(r))
      ensures r.Ok? ==> IsPlaced(old(db.Money()), db.Money(), u, r.value)
      ensures db.Lost() == old(db.Lost()) - LossOf(ErrorOf(r))
    {
      hide ComputePotentialPayout, BankOps.StakeBet;
      var outcome := db.OutcomesGet(o);
      if outcome.Err? {
        return Err(outcome.error);
      }
      var market := db.MarketsGet(outcome.value.marketId);
      if market.Err? {
        return Err(market.error);
      }
      var event := db.EventsGet(market.value.eventId);
      if event.Err? {
        return Err(event.error);
      }
      if event.value.status != EventUpcoming || event.value.startsAt <= now || market.value.status != MarketOpen {
        return Err(ErrMarketClosed);
      }
      var payout := ComputePotentialPayout(stake, outcome.value.odds);
      r := StakeInTx(db, Bet(u, o, market.value.eventId, stake, outcome.value.odds, payout, BetPending));
    }
  }

  /** The result names the last bet row and the user's balance. */
  ghost predicate IsPlaced(before: Bank, after: Bank, u: nat, placed: Placed) {
    && placed.id == |before.bets| && after.bets == before.bets + [placed.bet] && placed.bet.userId == u
    && u in after.wallets && after.wallets[u] == placed.balance
  }

  /** Lock the wallet, check the balance, insert the bet, debit, write the ledger row. */
  method StakeInTx(db: Database, bet: Bet) returns (r: Try<Placed>)
    modifies db`wallets, db`ledger, db`bets, db`faults
    ensures Performs(BankOps.StakeBet(old(db.Money()), bet), db.Money(), ErrorOf(r))
    ensures r.Ok? ==> IsPlaced(old(db.Money()), db.Money(), bet.userId, r.value) && r.value.bet == bet
    ensures db.Lost() == old(db.Lost()) - LossOf(ErrorOf(r))
  {
    var wallet := db.WalletsGetForUpdate(bet.userId);
    if wallet.Err? {
      return Err(wallet.error);
    }
    if wallet.value < bet.stake {
      return Err(ErrInsufficientBalance);
    }
    var id := db.BetsCreate(bet);
    if id.Err? {
      return Err(id.error);
    }
    var balance := db.WalletsUpdateBalance(bet.userId, -bet.stake);
    if balance.Err? {
      return Err(balance.error);
    }
    var err := db.LedgerCreate(LedgerRow(bet.userId, -bet.stake, TxBetStake, Some(id.value), balance.value));
    return if err.Some? then Err(err.value) else Ok(Placed(id.value, bet, balance.value));
  }

  // ---------- AdminService.AdjustBalance ----------

  /** The balance and its ledger row together, or nothing; returns the new balance. */
  method AdjustBalance(db: Database, u: nat, amount: int) returns (r: Try<int>)
    modifies db
    ensures Concludes(BankOps.AdjustBalance(old(db.Money()), u, amount), old(db.Money()), db.Money(), ErrorOf(r))
    ensures r.Ok? ==> u in db.wallets && r.value == db.wallets[u]
    ensures db.Lost() == old(db.Lost()) - LossOf(ErrorOf(r))
    ensures db.Cat() == old(db.Cat())
  {
    if amount == 0 {
      return Err(ErrBetOutOfRange);
    }
    var err := db.Begin();
    if err.Some? {
      return Err(err.value);
    }
    r := AdjustInTx(db, u, amount);
    err := db.End(ErrorOf(r));
    if err.Some? {
      return Err(err.value);
    }
  }

  method AdjustInTx(db: Database, u: nat, amount: int) returns (r: Try<int>)
    requires amount != 0
    modifies db`wallets, db`ledger, db`faults
    ensures Performs(BankOps.AdjustBalance(old(db.Money()), u, amount), db.Money(), ErrorOf(r))
    ensures r.Ok? ==> u in db.wallets && r.value == db.wallets[u]
    ensures db.Lost() == old(db.Lost()) - LossOf(ErrorOf(r))
  {
    var wallet := db.WalletsGetForUpdate(u);
    if wallet.Err? {
      return Err(wallet.error);
    }
    if wallet.value + amount < 0 {
      return Err(ErrInsufficientBalance);
    }
    var balance := db.WalletsUpdateBalance(u, amount);
    if balance.Err? {
      return balance;
    }
    var err := db.LedgerCreate(LedgerRow(u, amount, TxAdminAdjust, None, balance.value));
    return if err.Some? then Err(err.value) else balance;
  }

  // ---------- AuthService.Register, OAuthService.LoginOrRegister ----------

  method EnrollInTx(db: Database, email: Option<string>, bonus: int) returns (r: Try<nat>)
    modifies db`users, db`wallets, db`ledger, db`faults
    ensures r.Ok? ==> r.value == |old(db.users)| && BankOps.Enroll(old(db.Money()), email, bonus) == Ok(db.Money())
    ensures r.Err? ==> Refused(BankOps.Enroll(old(db.Money()), email, bonus), r.error)
    ensures db.Lost() == old(db.Lost()) - LossOf(ErrorOf(r))
  {
    var u := |db.users|;
    var err := db.UsersCreate(email);
    if err.Some? {
      return Err(err.value);
    }
    err := db.WalletsCreate(u);
    if err.Some? {
      return Err(err.value);
    }
    err := Move(db, u, bonus, TxSignupBonus, None);
    if err.Some? {
      return Err(err.value);
    }
    return Ok(u);
  }

  /** User, wallet, bonus and ledger row together, or nothing. */
  method Register(db: Database, email: string, bonus: int) returns (err: Option<Error>)
    modifies db
    ensures Concludes(BankOps.Register(old(db.Money()), email, bonus), old(db.Money()), db.Money(), err)
    ensures db.Lost() == old(db.Lost()) - LossOf(err)
    ensures db.Cat() == old(db.Cat())
  {
    err := db.Begin();
    if err.Some? {
      return;
    }
    var u := EnrollInTx(db, Some(email), bonus);
    err := db.End(if u.Err? then Some(u.error) else None);
  }

  lemma NoEmailNoUser(users: seq<User>)
    ensures Where(users, BankOps.HasEmail(None)) == []
  {
    WhereNone(users, BankOps.HasEmail(None));
  }

  lemma KnownIdentity(bank: Bank, key: (Provider, string), email: Option<string>, bonus: int)
    requires key in bank.identities
    ensures BankOps.LoginOrRegister(bank, key.0, key.1, email, bonus)
         == if bank.identities[key] < |bank.users| then Ok((bank, bank.identities[key])) else Err(ErrNotFound)
  {
  }

  lemma KnownEmail(bank: Bank, key: (Provider, string), email: Option<string>, bonus: int)
    requires key !in bank.identities && Known(bank.users, email).Some?
    ensures var u := Known(bank.users, email).value;
      BankOps.LoginOrRegister(bank, key.0, key.1, email, bonus) == Ok((bank.(identities := bank.identities[key := u]), u))
  {
    hide Where, BankOps.HasEmail, BankOps.Enroll;
  }

  /** A user nobody knows is enrolled and linked. */
  lemma NewScenario(bank: Bank, key: (Provider, string), email: Option<string>, bonus: int)
    requires key !in bank.identities && Known(bank.users, email) == None
    ensures var enrolled := BankOps.Enroll(bank, email, bonus);
      BankOps.LoginOrRegister(bank, key.0, key.1, email, bonus)
      == if enrolled.Err? then Err(enrolled.error)
         else Ok((enrolled.value.(identities := enrolled.value.identities[key := |bank.users|]), |bank.users|))
  {
    hide BankOps.Enroll;
  }

  /** The login specified for the identity, or a refusal that moves nothing. */
  ghost predicate LoggedIn(before: Bank, key: (Provider, string), email: Option<string>, bonus: int, after: Bank, r: Try<nat>) {
    var spec := BankOps.LoginOrRegister(before, key.0, key.1, email, bonus);
    if r.Ok? then spec == Ok((after, r.value)) else after == before && Refused(spec, r.error)
  }

  /** The three scenarios of an OAuth callback; each changes everything it promises, or nothing. */
  method LoginOrRegister(db: Database, provider: Provider, externalId: string, email: Option<string>, bonus: int)
    returns (r: Try<nat>)
    modifies db
    ensures LoggedIn(old(db.Money()), (provider, externalId), email, bonus, db.Money(), r)
    ensures db.Lost() == old(db.Lost()) - LossOf(ErrorOf(r))
    ensures db.Cat() == old(db.Cat())
  {
    var key := (provider, externalId);
    if key in db.identities {
      KnownIdentity(db.Money(), key, email, bonus);
    }
    hide BankOps.LoginOrRegister;
    var err := db.Send(); // identities.GetByProvider
    if err.Some? {
      return Err(err.value);
    }
    if key in db.identities {
      err := db.Send(); // users.GetByID
      if err.Some? {
        return Err(err.value);
      }
      return if db.identities[key] < |db.users| then Ok(db.identities[key]) else Err(ErrNotFound);
    }
    r := LinkOrEnroll(db, key, email, bonus);
  }

  /** An identity not seen before: linked to the user with that email, if there is one. */
  method LinkOrEnroll(db: Database, key: (Provider, string), email: Option<string>, bonus: int) returns (r: Try<nat>)
    requires key !in db.identities
    modifies db
    ensures LoggedIn(old(db.Money()), key, email, bonus, db.Money(), r)
    ensures db.Lost() == old(db.Lost()) - LossOf(ErrorOf(r))
    ensures db.Cat() == old(db.Cat())
  {
    hide Known, BankOps.LoginOrRegister;
    var known := FindByEmail(db, email);
    if known.Err? {
      return Err(known.error);
    }
    if known.value == None {
      r := EnrollAndLink(db, key, email, bonus);
    } else {
      r := LinkKnown(db, key, email, bonus, known.value.value);
    }
  }

  method LinkKnown(db: Database, key: (Provider, string), email: Option<string>, ghost bonus: int, u: nat) returns (r: Try<nat>)
    requires key !in db.identities && Known(db.users, email) == Some(u)
    modifies db`identities, db`faults
    ensures LoggedIn(old(db.Money()), key, email, bonus, db.Money(), r)
    ensures db.Lost() == old(db.Lost()) - LossOf(ErrorOf(r))
  {
    KnownEmail(db.Money(), key, email, bonus);
    hide Known, BankOps.LoginOrRegister;
    var err := db.IdentitiesCreate(key, u);
    return if err.Some? then Err(err.value) else Ok(u);
  }

  /** The user with that email, if an email is given and known. */
  function Known(users: seq<User>, email: Option<string>): Option<nat> {
    var ids := Where(users, BankOps.HasEmail(email));
    if ids == [] then None else Some(ids[0])
  }

  /** users.GetByEmail, asked only when the provider sent an address. */
  method FindByEmail(db: Database, email: Option<string>) returns (r: Try<Option<nat>>)
    modifies db`faults
    ensures r.Ok? ==> r.value == Known(db.users, email)
    ensures r.Err? ==> r.error == ErrConnection
    ensures db.Lost() == old(db.Lost()) - LossOf(ErrorOf(r))
  {
    NoEmailNoUser(db.users);
    hide Where, BankOps.HasEmail;
    if email == None {
      return Ok(None);
    }
    var err := db.Send();
    return if err.Some? then Err(err.value) else Ok(Known(db.users, email));
  }

  method EnrollAndLink(db: Database, key: (Provider, string), email: Option<string>, bonus: int) returns (r: Try<nat>)
    requires key !in db.identities && Known(db.users, email) == None
    modifies db
    ensures LoggedIn(old(db.Money()), key, email, bonus, db.Money(), r)
    ensures db.Lost() == old(db.Lost()) - LossOf(ErrorOf(r))
    ensures db.Cat() == old(db.Cat())
  {
    hide Known, BankOps.LoginOrRegister;
    var err := db.Begin();
    if err.Some? {
      return Err(err.value);
    }
    r := EnrollAndLinkInTx(db, key, email, bonus);
    err := db.End(ErrorOf(r));
    if err.Some? {
      r := Err(err.value);
    }
  }

  method EnrollAndLinkInTx(db: Database, key: (Provider, string), email: Option<string>, bonus: int) returns (r: Try<nat>)
    requires key !in db.identities && Known(db.users, email) == None
    modifies db`users, db`identities, db`wallets, db`ledger, db`faults
    ensures var spec := BankOps.LoginOrRegister(old(db.Money()), key.0, key.1, email, bonus);
      if r.Ok? then spec == Ok((db.Money(), r.value)) else Refused(spec, r.error)
    ensures db.Lost() == old(db.Lost()) - LossOf(ErrorOf(r))
  {
    NewScenario(db.Money(), key, email, bonus);
    hide BankOps.Enroll, BankOps.LoginOrRegister, Known;
    r := EnrollInTx(db, email, bonus);
    if r.Ok? {
      var err := db.IdentitiesCreate(key, r.value);
      if err.Some? {
        r := Err(err.value);
      }
    }
  }
}
