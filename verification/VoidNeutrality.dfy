/** Bets that end void leave no trace: deleting them from a run changes no guard and no final balance. */
module VoidNeutrality {
  import opened Sums
  import opened Domain
  import opened Payout
  import opened BankOps
  import opened Ledger
  import opened Plans
  import opened CatalogueOps
  import opened Settlement
  import opened Lifecycle
  import opened Service
  import opened Runs

  /** A run in which every call is accepted. */
  predicate Legal(db: Db, cfg: Config, ops: seq<Op>)
    decreases |ops|
  {
    |ops| == 0 || (Step(db, cfg, ops[0]).Ok? && Legal(Exec(db, cfg, ops[0]), cfg, ops[1..]))
  }

  /** The run with the calls that placed the bets of V deleted. */
  function Drop(db: Db, cfg: Config, ops: seq<Op>, V: set<nat>): seq<Op>
    decreases |ops|
  {
    if |ops| == 0 then []
    else
      var rest := Drop(Exec(db, cfg, ops[0]), cfg, ops[1..], V);
      if ops[0].Place? && |db.bank.bets| in V then rest else [ops[0]] + rest
  }

  /** The bets that are not in V, in order. */
  function Without(bets: seq<Bet>, V: set<nat>): seq<Bet> {
    if |bets| == 0 then []
    else Without(bets[..|bets| - 1], V) + (if |bets| - 1 in V then [] else [bets[|bets| - 1]])
  }

  /** Stakes of user u still locked in pending bets of V. */
  function Held(bets: seq<Bet>, V: set<nat>, u: nat): int {
    if |bets| == 0 then 0
    else
      var last := bets[|bets| - 1];
      Held(bets[..|bets| - 1], V, u)
      + if |bets| - 1 in V && last.userId == u && last.status == BetPending then last.stake else 0
  }

  ghost predicate PendingOrVoid(bets: seq<Bet>, V: set<nat>) {
    forall b :: b in V && 0 <= b < |bets| ==> bets[b].status == BetPending || bets[b].status == BetVoid
  }

  /** The reduced run is ahead by exactly the stakes its missing bets still hold. */
  ghost predicate Ahead(s: Bank, t: Bank, V: set<nat>) {
    && t.users == s.users && t.identities == s.identities
    && t.bets == Without(s.bets, V)
    && t.wallets.Keys == s.wallets.Keys
    && (forall u :: u in s.wallets ==> t.wallets[u] == s.wallets[u] + Held(s.bets, V, u))
    && PendingOrVoid(s.bets, V)
  }

  ghost predicate Sim(s: Db, t: Db, V: set<nat>) {
    t.cat == s.cat && Ahead(s.bank, t.bank, V)
  }

  lemma {:induction false} HeldNonNegative(bets: seq<Bet>, V: set<nat>, u: nat)
    requires forall b :: 0 <= b < |bets| ==> SoundBet(bets[b])
    ensures Held(bets, V, u) >= 0
  {
    if |bets| > 0 {
      HeldNonNegative(bets[..|bets| - 1], V, u);
    }
  }

  lemma {:induction false} AllVoidNothingHeld(bets: seq<Bet>, V: set<nat>, u: nat)
    requires forall b :: b in V && 0 <= b < |bets| ==> bets[b].status == BetVoid
    ensures Held(bets, V, u) == 0
  {
    if |bets| > 0 {
      AllVoidNothingHeld(bets[..|bets| - 1], V, u);
    }
  }

  lemma {:induction false} WithoutIsSound(t: Bank, bets: seq<Bet>, V: set<nat>)
    requires forall b :: 0 <= b < |bets| ==> bets[b].userId in t.wallets && SoundBet(bets[b])
    ensures forall b :: 0 <= b < |Without(bets, V)| ==>
      Without(bets, V)[b].userId in t.wallets && SoundBet(Without(bets, V)[b])
  {
    hide SoundBet;
    if |bets| > 0 {
      WithoutIsSound(t, bets[..|bets| - 1], V);
    }
  }

  lemma AheadIsSound(s: Bank, t: Bank, V: set<nat>)
    requires SoundBets(s) && Ahead(s, t, V)
    ensures SoundBets(t)
    ensures forall u :: u in s.wallets ==> t.wallets[u] >= s.wallets[u]
  {
    WithoutIsSound(t, s.bets, V);
    forall u | u in s.wallets ensures Held(s.bets, V, u) >= 0 {
      HeldNonNegative(s.bets, V, u);
    }
  }

  // ---------- settlement ----------

  lemma {:induction false} WithoutResolved(bets: seq<Bet>, results: map<nat, Result>, V: set<nat>)
    ensures Without(Resolved(bets, results), V) == Resolved(Without(bets, V), results)
  {
    if |bets| > 0 {
      var n := |bets| - 1;
      WithoutResolved(bets[..n], results, V);
      assert Resolved(bets, results)[..n] == Resolved(bets[..n], results);
      var kept := Without(bets[..n], V);
      assert Resolved(kept + [bets[n]], results) == Resolved(kept, results) + [Resolve(results, bets[n])];
    }
  }

  /** What the missing bets would have been refunded is exactly what they stop holding. */
  lemma {:induction false} RefundsBalance(bets: seq<Bet>, results: map<nat, Result>, V: set<nat>, u: nat)
    requires PendingOrVoid(Resolved(bets, results), V)
    ensures Total(Without(bets, V), OwedTo(results, u)) + Held(bets, V, u)
         == Total(bets, OwedTo(results, u)) + Held(Resolved(bets, results), V, u)
  {
    if |bets| > 0 {
      var n := |bets| - 1;
      var after := Resolved(bets, results);
      assert after[..n] == Resolved(bets[..n], results);
      forall b | b in V && 0 <= b < n
        ensures after[..n][b].status == BetPending || after[..n][b].status == BetVoid
      {
        assert after[..n][b] == after[b];
      }
      RefundsBalance(bets[..n], results, V, u);
      assert after[n] == Resolve(results, bets[n]);
      if n in V {
        assert after[n].status == BetPending || after[n].status == BetVoid;
        assert Without(bets, V) == Without(bets[..n], V);
        assert bets[n].status == BetPending && bets[n].outcomeId in results ==> results[bets[n].outcomeId] == ResultVoid;
      } else {
        TotalAppend(Without(bets[..n], V), bets[n], OwedTo(results, u));
      }
    }
  }

  lemma CloseKeepsSim(s: Db, t: Db, close: Close, V: set<nat>)
    requires Sim(s, t, V) && SoundBets(s.bank) && close.e < |s.cat.events|
    requires PendingOrVoid(Resolved(s.bank.bets, Verdicts(s.cat, close.e, close.d)), V)
    ensures var s' := Settle(s, close.e, close.final, close.d, close.scores);
            var t' := Settle(t, close.e, close.final, close.d, close.scores);
      s'.Ok? && t'.Ok? && Sim(s'.value, t'.value, V)
  {
    hide OutcomeVerdict, MarketVerdict, Verdicts, Closed, Settle, SoundBets, Resolved;
    AheadIsSound(s.bank, t.bank, V);
    SettleClosedForm(s, close.e, close.final, close.d, close.scores);
    SettleClosedForm(t, close.e, close.final, close.d, close.scores);
    var verdicts := Verdicts(s.cat, close.e, close.d);
    WithoutResolved(s.bank.bets, verdicts, V);
    forall u | u in s.bank.wallets
      ensures Total(t.bank.bets, OwedTo(verdicts, u)) + Held(s.bank.bets, V, u)
           == Total(s.bank.bets, OwedTo(verdicts, u)) + Held(Resolved(s.bank.bets, verdicts), V, u)
    {
      RefundsBalance(s.bank.bets, verdicts, V, u);
    }
  }

  // ---------- the other operations ----------

  lemma AppendedBet(bets: seq<Bet>, bet: Bet, V: set<nat>, u: nat)
    ensures Without(bets + [bet], V) == Without(bets, V) + if |bets| in V then [] else [bet]
    ensures Held(bets + [bet], V, u)
         == Held(bets, V, u) + if |bets| in V && bet.userId == u && bet.status == BetPending then bet.stake else 0
  {
    assert (bets + [bet])[..|bets|] == bets;
  }

  lemma StakeStaysPendingOrVoid(bets: seq<Bet>, bet: Bet, V: set<nat>)
    requires PendingOrVoid(bets, V) && bet.status == BetPending
    ensures PendingOrVoid(bets + [bet], V)
  {
  }

  lemma StakeKeepsAhead(s: Bank, t: Bank, bet: Bet, V: set<nat>)
    requires Ahead(s, t, V) && SoundBets(s) && bet.status == BetPending && StakeBet(s, bet).Ok?
    ensures if |s.bets| in V then Ahead(StakeBet(s, bet).value, t, V)
            else StakeBet(t, bet).Ok? && Ahead(StakeBet(s, bet).value, StakeBet(t, bet).value, V)
  {
    AheadIsSound(s, t, V);
    hide SoundBets, Held, Without;
    var s' := StakeBet(s, bet).value;
    AppendedBet(s.bets, bet, V, bet.userId);
    StakeStaysPendingOrVoid(s.bets, bet, V);
    if |s.bets| in V {
      assert Without(s.bets, V) + [] == Without(s.bets, V);
      forall u | u in s.wallets ensures t.wallets[u] == s'.wallets[u] + Held(s'.bets, V, u) {
        AppendedBet(s.bets, bet, V, u);
      }
    } else {
      assert bet.userId in t.wallets && bet.stake <= s.wallets[bet.userId] <= t.wallets[bet.userId];
      var t' := StakeBet(t, bet).value;
      forall u | u in s.wallets ensures t'.wallets[u] == s'.wallets[u] + Held(s'.bets, V, u) {
        AppendedBet(s.bets, bet, V, u);
      }
    }
  }

  lemma PlaceKeepsSim(s: Db, t: Db, cfg: Config, now: int, user: nat, outcome: nat, stake: int, V: set<nat>)
    requires Sim(s, t, V) && SoundBets(s.bank) && PlaceBet(s, cfg, now, user, outcome, stake).Ok?
    ensures var s' := PlaceBet(s, cfg, now, user, outcome, stake).value;
      if |s.bank.bets| in V then Sim(s', t, V)
      else
        var t' := PlaceBet(t, cfg, now, user, outcome, stake);
        t'.Ok? && Sim(s', t'.value, V)
  {
    hide ComputePotentialPayout, SoundBets, StakeBet, Ahead;
    var oc := s.cat.outcomes[outcome];
    StakeKeepsAhead(s.bank, t.bank,
      Bet(user, outcome, s.cat.markets[oc.marketId].eventId, stake, oc.odds, ComputePotentialPayout(stake, oc.odds), BetPending), V);
  }

  lemma AdjustKeepsAhead(s: Bank, t: Bank, u: nat, amount: int, V: set<nat>)
    requires Ahead(s, t, V) && SoundBets(s) && AdjustBalance(s, u, amount).Ok?
    ensures AdjustBalance(t, u, amount).Ok? && Ahead(AdjustBalance(s, u, amount).value, AdjustBalance(t, u, amount).value, V)
  {
    AheadIsSound(s, t, V);
  }

  lemma {:induction false} NoBetsNothingHeld(bets: seq<Bet>, V: set<nat>, u: nat)
    requires forall b :: 0 <= b < |bets| ==> bets[b].userId != u
    ensures Held(bets, V, u) == 0
  {
    if |bets| > 0 {
      NoBetsNothingHeld(bets[..|bets| - 1], V, u);
    }
  }

  lemma EnrollKeepsAhead(s: Bank, t: Bank, email: Option<string>, bonus: int, V: set<nat>)
    requires Ahead(s, t, V) && SoundBets(s) && Enroll(s, email, bonus).Ok?
    ensures Enroll(t, email, bonus).Ok? && Ahead(Enroll(s, email, bonus).value, Enroll(t, email, bonus).value, V)
  {
    EnrollEffect(s, email, bonus);
    NoBetsNothingHeld(s.bets, V, |s.users|);
  }

  lemma LoginKeepsAhead(s: Bank, t: Bank, provider: Provider, externalId: string, email: Option<string>, bonus: int, V: set<nat>)
    requires Ahead(s, t, V) && SoundBets(s) && LoginOrRegister(s, provider, externalId, email, bonus).Ok?
    ensures var s' := LoginOrRegister(s, provider, externalId, email, bonus);
            var t' := LoginOrRegister(t, provider, externalId, email, bonus);
      t'.Ok? && Ahead(s'.value.0, t'.value.0, V)
  {
    hide Enroll, SoundBets, Held, Without, Where;
    if (provider, externalId) !in s.identities && Where(s.users, HasEmail(email)) == [] {
      EnrollKeepsAhead(s, t, email, bonus, V);
    }
  }

  /** One call: either it placed a bet of V and is deleted, or the reduced run accepts it too. */
  lemma StepKeepsSim(s: Db, t: Db, cfg: Config, op: Op, V: set<nat>)
    requires Sim(s, t, V) && SoundBets(s.bank) && Step(s, cfg, op).Ok?
    requires PendingOrVoid(Exec(s, cfg, op).bank.bets, V)
    ensures if op.Place? && |s.bank.bets| in V then Sim(Exec(s, cfg, op), t, V)
            else Step(t, cfg, op).Ok? && Sim(Exec(s, cfg, op), Exec(t, cfg, op), V)
  {
    hide SoundBets, Settle, CloseOf, StepCatalogue, PlaceBet, AdjustBalance, LoginOrRegister, Enroll, Verdicts, Closed,
      Ahead, PendingOrVoid;
    if Closing(op) {
      CloseIsSound(s.cat, op);
      var close := CloseOf(s.cat, op).value;
      SettleClosedForm(s, close.e, close.final, close.d, close.scores);
      CloseKeepsSim(s, t, close, V);
    } else if !CatalogueOnly(op) {
      match op
      case Place(now, user, outcome, stake) => PlaceKeepsSim(s, t, cfg, now, user, outcome, stake, V);
      case Register(email) => EnrollKeepsAhead(s.bank, t.bank, Some(email), cfg.signupBonus, V);
      case Adjust(user, amount) => AdjustKeepsAhead(s.bank, t.bank, user, amount, V);
      case Login(provider, externalId, email) =>
        LoginKeepsAhead(s.bank, t.bank, provider, externalId, email, cfg.signupBonus, V);
    }
  }

  // ---------- whole runs ----------

  lemma {:induction false} RunKeepsSim(s: Db, t: Db, cfg: Config, ops: seq<Op>, V: set<nat>)
    requires Inv(s, cfg) && Sim(s, t, V) && Legal(s, cfg, ops)
    requires PendingOrVoid(Run(s, cfg, ops).bank.bets, V)
    ensures Legal(t, cfg, Drop(s, cfg, ops, V))
    ensures Sim(Run(s, cfg, ops), Run(t, cfg, Drop(s, cfg, ops, V)), V)
    decreases |ops|
  {
    hide Sane, InStep, BetsFit, BankInv, Exec, Sim, PendingOrVoid;
    if |ops| > 0 {
      var next := Exec(s, cfg, ops[0]);
      StepKeepsInv(s, cfg, ops[0]);
      RunIsLater(next, cfg, ops[1..]);
      EarlierPendingOrVoid(next.bank, Run(next, cfg, ops[1..]).bank, V);
      InvIsSound(s, cfg);
      StepKeepsSim(s, t, cfg, ops[0], V);
      var rest := Drop(next, cfg, ops[1..], V);
      if ops[0].Place? && |s.bank.bets| in V {
        RunKeepsSim(next, t, cfg, ops[1..], V);
      } else {
        RunKeepsSim(next, Exec(t, cfg, ops[0]), cfg, ops[1..], V);
        assert ([ops[0]] + rest)[1..] == rest;
      }
    }
  }

  lemma InvIsSound(db: Db, cfg: Config)
    requires Inv(db, cfg)
    ensures SoundBets(db.bank)
  {
  }

  lemma EarlierPendingOrVoid(now: Bank, later: Bank, V: set<nat>)
    requires |now.bets| <= |later.bets| && forall b :: 0 <= b < |now.bets| ==> FrozenBet(now.bets[b], later.bets[b])
    requires PendingOrVoid(later.bets, V)
    ensures PendingOrVoid(now.bets, V)
  {
    forall b | b in V && 0 <= b < |now.bets| ensures now.bets[b].status == BetPending || now.bets[b].status == BetVoid {
      assert FrozenBet(now.bets[b], later.bets[b]);
    }
  }

  /**
   * Take any run from the empty database in which every call is accepted, and any set V of bets that end void.
   * Deleting the calls that placed them leaves a run that is still accepted call by call, and ends with the
   * same catalogue, the same users, the same balances and the same bets except those of V.
   */
  lemma VoidBetsAreNeutral(cfg: Config, ops: seq<Op>, V: set<nat>)
    requires Legal(EMPTY, cfg, ops)
    requires var bets := Run(EMPTY, cfg, ops).bank.bets;
      forall b :: b in V ==> b < |bets| && bets[b].status == BetVoid
    ensures var full, reduced := Run(EMPTY, cfg, ops), Run(EMPTY, cfg, Drop(EMPTY, cfg, ops, V));
      && Legal(EMPTY, cfg, Drop(EMPTY, cfg, ops, V))
      && reduced.cat == full.cat && reduced.bank.users == full.bank.users
      && reduced.bank.wallets == full.bank.wallets
      && reduced.bank.bets == Without(full.bank.bets, V)
  {
    hide Run, Legal, Drop, Inv;
    EmptyIsInv(cfg);
    RunKeepsSim(EMPTY, EMPTY, cfg, ops, V);
    var full, reduced := Run(EMPTY, cfg, ops), Run(EMPTY, cfg, Drop(EMPTY, cfg, ops, V));
    forall u | u in full.bank.wallets ensures reduced.bank.wallets[u] == full.bank.wallets[u] {
      AllVoidNothingHeld(full.bank.bets, V, u);
    }
    assert reduced.bank.wallets == full.bank.wallets;
  }
}
