/** Money movements: registration bonus, stake, admin adjustment, payout and refund. */
module BankOps {
  import opened Sums
  import opened Domain
  import opened Payout

  /** Lock the wallet, UPDATE balance = balance + amount, INSERT the ledger row with the new balance. */
  function Post(bank: Bank, u: nat, amount: int, kind: TxType, betId: Option<nat>): Try<Bank> {
    if u !in bank.wallets then Err(ErrNotFound)
    else
      var after := bank.wallets[u] + amount;
      if after < 0 then Err(ErrCheckViolation)
      else Ok(bank.(wallets := bank.wallets[u := after],
                    ledger := bank.ledger + [LedgerRow(u, amount, kind, betId, after)]))
  }

  function HasEmail(email: Option<string>): User -> bool {
    (user: User) => email.Some? && user.email == email
  }

  /** users.Create, wallets.Create and the signup bonus; the new user's id is |bank.users|. */
  function Enroll(bank: Bank, email: Option<string>, bonus: int): Try<Bank> {
    var u := |bank.users|;
    if Where(bank.users, HasEmail(email)) != [] || u in bank.wallets then Err(ErrConflict)
    else
      Post(bank.(users := bank.users + [User(email)], wallets := bank.wallets[u := 0]),
           u, bonus, TxSignupBonus, None)
  }

  /** AuthService.Register. */
  function Register(bank: Bank, email: string, bonus: int): Try<Bank> {
    Enroll(bank, Some(email), bonus)
  }

  /** OAuthService.LoginOrRegister: known identity, known email, or a new user; returns the user logged in. */
  function LoginOrRegister(bank: Bank, provider: Provider, externalId: string, email: Option<string>, bonus: int)
    : Try<(Bank, nat)>
  {
    var key := (provider, externalId);
    if key in bank.identities then
      if bank.identities[key] < |bank.users| then Ok((bank, bank.identities[key])) else Err(ErrNotFound)
    else
      var known := Where(bank.users, HasEmail(email));
      if known != [] then
        Ok((bank.(identities := bank.identities[key := known[0]]), known[0]))
      else
        match Enroll(bank, email, bonus)
        case Err(e) => Err(e)
        case Ok(next) => Ok((next.(identities := next.identities[key := |bank.users|]), |bank.users|))
  }

  /** AdminService.AdjustBalance. */
  function AdjustBalance(bank: Bank, u: nat, amount: int): Try<Bank> {
    if amount == 0 then Err(ErrBetOutOfRange)
    else if u !in bank.wallets then Err(ErrNotFound)
    else if bank.wallets[u] + amount < 0 then Err(ErrInsufficientBalance)
    else Post(bank, u, amount, TxAdminAdjust, None)
  }

  /** The wallet part of PlaceBet: balance guard, INSERT bet, debit, ledger row. */
  function StakeBet(bank: Bank, bet: Bet): Try<Bank> {
    if bet.userId !in bank.wallets then Err(ErrNotFound)
    else if bank.wallets[bet.userId] < bet.stake then Err(ErrInsufficientBalance)
    else if bet.stake <= 0 then Err(ErrCheckViolation)
    else Post(bank.(bets := bank.bets + [bet]), bet.userId, -bet.stake, TxBetStake, Some(|bank.bets|))
  }

  /** BettingService.PlaceBet at the moment now. */
  function PlaceBet(db: Db, cfg: Config, now: int, u: nat, o: nat, stake: int): Try<Db> {
    if stake < cfg.betMin || stake > cfg.betMax then Err(ErrBetOutOfRange)
    else if o >= |db.cat.outcomes| then Err(ErrNotFound)
    else
      var outcome := db.cat.outcomes[o];
      if outcome.marketId >= |db.cat.markets| then Err(ErrNotFound)
      else
        var market := db.cat.markets[outcome.marketId];
        if market.eventId >= |db.cat.events| then Err(ErrNotFound)
        else
          var event := db.cat.events[market.eventId];
          if event.status != EventUpcoming || event.startsAt <= now || market.status != MarketOpen then
            Err(ErrMarketClosed)
          else
            var payout := ComputePotentialPayout(stake, outcome.odds);
            match StakeBet(db.bank, Bet(u, o, market.eventId, stake, outcome.odds, payout, BetPending))
            case Err(e) => Err(e)
            case Ok(bank) => Ok(db.(bank := bank))
  }

  /** When a bet is accepted: everything a caller can check beforehand. */
  predicate Acceptable(db: Db, cfg: Config, now: int, u: nat, o: nat, stake: int) {
    && cfg.betMin <= stake <= cfg.betMax && 0 < stake
    && o < |db.cat.outcomes| && db.cat.outcomes[o].marketId < |db.cat.markets|
    && var market := db.cat.markets[db.cat.outcomes[o].marketId];
       && market.eventId < |db.cat.events| && market.status == MarketOpen
       && db.cat.events[market.eventId].status == EventUpcoming && now < db.cat.events[market.eventId].startsAt
       && u in db.bank.wallets && stake <= db.bank.wallets[u]
  }

  /** What an accepted bet stores: the outcome's current price, and the largest whole payout at it. */
  predicate IsBetOn(db: Db, bet: Bet, u: nat, o: nat, stake: int)
    requires o < |db.cat.outcomes| && db.cat.outcomes[o].marketId < |db.cat.markets|
  {
    && bet.userId == u && bet.outcomeId == o && bet.eventId == db.cat.markets[db.cat.outcomes[o].marketId].eventId
    && bet.stake == stake && bet.odds == db.cat.outcomes[o].odds && bet.status == BetPending
    && (bet.odds > 1000 ==> 1000 * bet.payout <= stake * bet.odds < 1000 * (bet.payout + 1))
  }

  /**
   * A bet is taken exactly when it is acceptable; it then debits only that user by the stake, stores one bet at the
   * outcome's current price, writes the one ledger row that says so, and touches nothing else.
   */
  lemma PlaceBetExactly(db: Db, cfg: Config, now: int, u: nat, o: nat, stake: int)
    ensures PlaceBet(db, cfg, now, u, o, stake).Ok? <==> Acceptable(db, cfg, now, u, o, stake)
    ensures Acceptable(db, cfg, now, u, o, stake) ==>
      var next := PlaceBet(db, cfg, now, u, o, stake).value;
      && next.cat == db.cat && next.bank.users == db.bank.users && next.bank.identities == db.bank.identities
      && next.bank.wallets.Keys == db.bank.wallets.Keys
      && (forall v :: v in db.bank.wallets ==>
            next.bank.wallets[v] == db.bank.wallets[v] - if v == u then stake else 0)
      && |next.bank.bets| == |db.bank.bets| + 1 && db.bank.bets <= next.bank.bets
      && IsBetOn(db, next.bank.bets[|db.bank.bets|], u, o, stake)
      && next.bank.ledger == db.bank.ledger
           + [LedgerRow(u, -stake, TxBetStake, Some(|db.bank.bets|), db.bank.wallets[u] - stake)]
  {
    if Acceptable(db, cfg, now, u, o, stake) && db.cat.outcomes[o].odds > 1000 {
      PayoutIsFloor(stake, db.cat.outcomes[o].odds);
    }
    hide ComputePotentialPayout;
  }

  /**
   * An adjustment is taken exactly when it is not zero and leaves the balance non-negative; it then moves one wallet and
   * writes one ledger row, and otherwise the error says why.
   */
  lemma AdjustBalanceExactly(bank: Bank, u: nat, amount: int)
    ensures AdjustBalance(bank, u, amount).Ok? <==> amount != 0 && u in bank.wallets && bank.wallets[u] + amount >= 0
    ensures AdjustBalance(bank, u, amount).Ok? ==>
      var next := AdjustBalance(bank, u, amount).value;
      && next.wallets == bank.wallets[u := bank.wallets[u] + amount]
      && next.ledger == bank.ledger + [LedgerRow(u, amount, TxAdminAdjust, None, bank.wallets[u] + amount)]
      && next.users == bank.users && next.identities == bank.identities && next.bets == bank.bets
    ensures AdjustBalance(bank, u, amount).Err? ==>
      AdjustBalance(bank, u, amount).error
      == if amount == 0 then ErrBetOutOfRange else if u in bank.wallets then ErrInsufficientBalance else ErrNotFound
  {
  }

  /** One turn of the settlement loop: payout, refund or nothing, then the bet's final status. */
  function SettleBet(bank: Bank, results: map<nat, Result>, b: nat): Try<Bank>
    requires b < |bank.bets|
  {
    var bet := bank.bets[b];
    if bet.outcomeId !in results then Ok(bank)
    else
      var result := results[bet.outcomeId];
      var paid := match result
        case ResultWon => Post(bank, bet.userId, bet.payout, TxBetPayout, Some(b))
        case ResultVoid => Post(bank, bet.userId, bet.stake, TxBetRefund, Some(b))
        case ResultLost => Ok(bank);
      match paid
      case Err(e) => Err(e)
      case Ok(next) => Ok(next.(bets := next.bets[b := bet.(status := BetStatusFromResult(result))]))
  }

  /** The settlement loop over a list of bet ids. */
  function SettleBets(bank: Bank, results: map<nat, Result>, ids: seq<nat>): (r: Try<Bank>)
    requires forall i :: 0 <= i < |ids| ==> ids[i] < |bank.bets|
    ensures r.Ok? ==> |r.value.bets| == |bank.bets|
  {
    if |ids| == 0 then Ok(bank)
    else
      match SettleBets(bank, results, ids[..|ids| - 1])
      case Err(e) => Err(e)
      case Ok(next) => SettleBet(next, results, ids[|ids| - 1])
  }

  /** ListPendingByOutcomes: status = 'pending' AND outcome_id = ANY(...). */
  function PendingOn(results: map<nat, Result>): Bet -> bool {
    (b: Bet) => b.status == BetPending && b.outcomeId in results
  }

  // ---------- what one wallet is owed ----------

  /** What settling with these results still has to credit to user u for one bet. */
  function OwedTo(results: map<nat, Result>, u: nat): Bet -> int {
    (b: Bet) =>
      if b.userId == u && b.status == BetPending && b.outcomeId in results then
        match results[b.outcomeId]
        case ResultWon => b.payout
        case ResultVoid => b.stake
        case ResultLost => 0
      else 0
  }

  function Resolve(results: map<nat, Result>, b: Bet): Bet {
    if b.status == BetPending && b.outcomeId in results
    then b.(status := BetStatusFromResult(results[b.outcomeId])) else b
  }

  function Resolved(bets: seq<Bet>, results: map<nat, Result>): seq<Bet> {
    seq(|bets|, i requires 0 <= i < |bets| => Resolve(results, bets[i]))
  }

  predicate SoundBet(b: Bet) {
    b.stake > 0 && b.odds > 1000 && b.payout == ComputePotentialPayout(b.stake, b.odds)
  }

  /** Every bet has a wallet, a positive stake and the payout frozen when it was placed. */
  ghost predicate SoundBets(bank: Bank) {
    && (forall b :: 0 <= b < |bank.bets| ==> bank.bets[b].userId in bank.wallets && SoundBet(bank.bets[b]))
    && (forall u :: u in bank.wallets ==> bank.wallets[u] >= 0)
  }

  /** Settling one pending bet succeeds, decides it and credits its user what it is owed. */
  lemma SettleBetEffect(bank: Bank, results: map<nat, Result>, b: nat)
    requires b < |bank.bets| && SoundBets(bank) && bank.bets[b].status == BetPending
    ensures var r := SettleBet(bank, results, b);
      && r.Ok? && SoundBets(r.value)
      && r.value.users == bank.users && r.value.identities == bank.identities
      && r.value.wallets.Keys == bank.wallets.Keys
      && r.value.bets == bank.bets[b := Resolve(results, bank.bets[b])]
      && forall u :: u in bank.wallets ==> r.value.wallets[u] == bank.wallets[u] + OwedTo(results, u)(bank.bets[b])
  {
    hide ComputePotentialPayout;
    var bet := bank.bets[b];
    PayoutIsFloor(bet.stake, bet.odds);
    assert bank.bets[b := bet] == bank.bets;
  }

  ghost predicate Conserved(bank: Bank, next: Bank, results: map<nat, Result>) {
    && next.users == bank.users && next.identities == bank.identities
    && next.wallets.Keys == bank.wallets.Keys
    && forall u :: u in bank.wallets ==>
         next.wallets[u] + Total(next.bets, OwedTo(results, u)) == bank.wallets[u] + Total(bank.bets, OwedTo(results, u))
  }

  /** Settling one bet moves exactly what was owed from the bet to the wallet. */
  lemma SettleBetConserves(bank: Bank, results: map<nat, Result>, b: nat)
    requires b < |bank.bets| && SoundBets(bank) && bank.bets[b].status == BetPending
    ensures var r := SettleBet(bank, results, b);
      && r.Ok? && SoundBets(r.value) && Conserved(bank, r.value, results)
      && r.value.bets == bank.bets[b := Resolve(results, bank.bets[b])]
  {
    hide SettleBet, SoundBets;
    SettleBetEffect(bank, results, b);
    var next := SettleBet(bank, results, b).value;
    forall u | u in bank.wallets
      ensures next.wallets[u] + Total(next.bets, OwedTo(results, u)) == bank.wallets[u] + Total(bank.bets, OwedTo(results, u))
    {
      TotalUpdate(bank.bets, b, Resolve(results, bank.bets[b]), OwedTo(results, u));
    }
  }

  /** In whatever order distinct pending bets are settled, wallets plus outstanding credits stay constant. */
  lemma {:induction false} SettleBetsConserve(bank: Bank, results: map<nat, Result>, ids: seq<nat>)
    requires SoundBets(bank)
    requires forall i :: 0 <= i < |ids| ==> ids[i] < |bank.bets| && bank.bets[ids[i]].status == BetPending
    requires forall i, j :: 0 <= i < j < |ids| ==> ids[i] != ids[j]
    ensures var r := SettleBets(bank, results, ids);
      && r.Ok? && SoundBets(r.value) && Conserved(bank, r.value, results)
      && forall b :: 0 <= b < |bank.bets| ==>
           r.value.bets[b] == if b in ids then Resolve(results, bank.bets[b]) else bank.bets[b]
  {
    hide SettleBet, SoundBets, Resolve, Conserved;
    if |ids| == 0 {
      NothingMoves(bank, results);
    } else {
      var front, last := ids[..|ids| - 1], ids[|ids| - 1];
      SettleBetsConserve(bank, results, front);
      var mid := SettleBets(bank, results, front).value;
      assert last !in front;
      SettleBetConserves(mid, results, last);
      ConservedTransitive(bank, mid, SettleBet(mid, results, last).value, results);
      assert ids == front + [last];
    }
  }

  lemma NothingMoves(bank: Bank, results: map<nat, Result>)
    ensures Conserved(bank, bank, results)
  {
  }

  lemma ConservedTransitive(a: Bank, b: Bank, c: Bank, results: map<nat, Result>)
    requires Conserved(a, b, results) && Conserved(b, c, results)
    ensures Conserved(a, c, results)
  {
  }

  ghost predicate SameMembers(ids: seq<nat>, ids': seq<nat>) {
    forall b :: b in ids <==> b in ids'
  }

  /**
   * Closed form of the settlement loop. Processing the pending bets of the results in ANY order
   * credits each user the sum owed over the bets, decides exactly those bets, and never fails.
   */
  lemma SettlementClosedForm(bank: Bank, results: map<nat, Result>, ids: seq<nat>)
    requires SoundBets(bank)
    requires SameMembers(ids, Where(bank.bets, PendingOn(results)))
    requires forall i, j :: 0 <= i < j < |ids| ==> ids[i] != ids[j]
    ensures forall i :: 0 <= i < |ids| ==> ids[i] < |bank.bets|
    ensures var r := SettleBets(bank, results, ids);
      && r.Ok? && SoundBets(r.value)
      && r.value.users == bank.users && r.value.identities == bank.identities
      && r.value.bets == Resolved(bank.bets, results)
      && r.value.wallets.Keys == bank.wallets.Keys
      && forall u :: u in bank.wallets ==>
           r.value.wallets[u] == bank.wallets[u] + Total(bank.bets, OwedTo(results, u))
  {
    forall i | 0 <= i < |ids| ensures ids[i] < |bank.bets| && PendingOn(results)(bank.bets[ids[i]]) {
      assert ids[i] in ids;
    }
    SettleBetsConserve(bank, results, ids);
    hide SettleBets, SoundBets, Where;
    var next := SettleBets(bank, results, ids).value;
    forall b | 0 <= b < |bank.bets| ensures next.bets[b] == Resolve(results, bank.bets[b]) {
      assert PendingOn(results)(bank.bets[b]) ==> b in Where(bank.bets, PendingOn(results));
    }
    assert next.bets == Resolved(bank.bets, results);
    forall u | u in bank.wallets ensures Total(next.bets, OwedTo(results, u)) == 0 {
      TotalZero(next.bets, OwedTo(results, u));
    }
  }
}
