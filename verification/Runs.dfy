/** What every run of atomic service calls keeps. */
module Runs {
  import opened Sums
  import opened Domain
  import opened Payout
  import opened BankOps
  import opened Ledger
  import opened Plans
  import opened CatalogueOps
  import opened OddsSync
  import opened Settlement
  import opened Lifecycle
  import opened Service

  // ---------- the invariant ----------

  function StatusFor(result: Option<Result>): BetStatus {
    match result
    case None => BetPending
    case Some(r) => BetStatusFromResult(r)
  }

  /** The bet's event is its outcome's market's event; on admin events its status is its outcome's result. */
  predicate BetFits(c: Catalogue, b: Bet) {
    && b.outcomeId < |c.outcomes| && c.outcomes[b.outcomeId].marketId < |c.markets|
    && c.markets[c.outcomes[b.outcomeId].marketId].eventId == b.eventId < |c.events|
    && (c.events[b.eventId].source != SourceOddsAPI ==> b.status == StatusFor(c.outcomes[b.outcomeId].result))
  }

  ghost predicate BetsFit(c: Catalogue, bets: seq<Bet>) {
    forall b :: 0 <= b < |bets| ==> BetFits(c, bets[b])
  }

  /** No email address belongs to two users; a user may have none. */
  ghost predicate UniqueEmails(users: seq<User>) {
    forall i, j :: 0 <= i < j < |users| && users[i].email.Some? ==> users[i].email != users[j].email
  }

  ghost predicate Inv(db: Db, cfg: Config) {
    && Sane(db.cat) && InStep(db.cat)
    && BetsFit(db.cat, db.bank.bets)
    && BankInv(db.bank, cfg.signupBonus)
    && UniqueEmails(db.bank.users)
  }

  lemma EnrollKeepsEmails(bank: Bank, email: Option<string>, bonus: int)
    requires UniqueEmails(bank.users) && Enroll(bank, email, bonus).Ok?
    ensures UniqueEmails(Enroll(bank, email, bonus).value.users)
  {
    forall i | 0 <= i < |bank.users| && email.Some? ensures bank.users[i].email != email {
      assert HasEmail(email)(bank.users[i]) ==> i in Where(bank.users, HasEmail(email));
    }
    hide Where, HasEmail;
  }

  lemma LoginKeepsEmails(bank: Bank, provider: Provider, externalId: string, email: Option<string>, bonus: int)
    requires UniqueEmails(bank.users) && LoginOrRegister(bank, provider, externalId, email, bonus).Ok?
    ensures UniqueEmails(LoginOrRegister(bank, provider, externalId, email, bonus).value.0.users)
  {
    hide Where, HasEmail, Enroll, UniqueEmails;
    if (provider, externalId) !in bank.identities && Where(bank.users, HasEmail(email)) == [] {
      EnrollKeepsEmails(bank, email, bonus);
    }
  }

  lemma BetsFitEvolves(c: Catalogue, next: Catalogue, e: nat, bets: seq<Bet>)
    requires BetsFit(c, bets) && Evolves(c, next, e)
    ensures BetsFit(next, bets)
  {
    forall b | 0 <= b < |bets| ensures BetFits(next, bets[b]) {
      assert BetFits(c, bets[b]);
      var o := bets[b].outcomeId;
      assert OutcomeEvolves(c, next, e, o) && MarketEvolves(c, next, e, c.outcomes[o].marketId);
      assert SameEvent(c, next, e, bets[b].eventId);
    }
  }

  lemma GoLiveEvolves(c: Catalogue, e: nat, status: EventStatus)
    requires SetMatchStatus(c, e, status).Ok?
    ensures Evolves(c, SetMatchStatus(c, e, status).value, e)
  {
  }

  /** The one event a catalogue operation may touch. */
  function Touched(c: Catalogue, op: Op): nat
    requires CatalogueOnly(op)
  {
    match op
    case NewMatch(_, _) => |c.events|
    case NewCustom(_) => |c.events|
    case EditCustom(e, _, _, _) => e
    case EditMatch(e, _, _, _, _) => e
    case GoLive(e, _) => e
    case FeedEvent(api) => UpsertEvent(c, api).1
    case FeedOdds(e, _) => e
  }

  lemma CatalogueStepEvolves(c: Catalogue, op: Op)
    requires Sane(c) && InStep(c) && CatalogueOnly(op) && StepCatalogue(c, op).Ok?
    ensures var next := StepCatalogue(c, op).value;
      Sane(next) && InStep(next) && Evolves(c, next, Touched(c, op))
  {
    hide Sane, InStep, Evolves, CreateMatch, CreateCustomEvent, EditDetails, SetMatchStatus, SyncEvent, ApplyEvent, UpsertEvent;
    var next := StepCatalogue(c, op).value;
    match op
    case NewMatch(leagueFound, input) =>
      CreateMatchBuilds(c, leagueFound, input);
      BuildsKeepsInStep(c, next, |c.events|);
    case NewCustom(input) =>
      CreateCustomBuilds(c, input);
      BuildsKeepsInStep(c, next, |c.events|);
    case EditCustom(e, _, startsAt, edits) =>
      EditDetailsBuilds(c, SourceCustom, e, startsAt, edits);
      EditStaysInStep(c, SourceCustom, e, startsAt, edits);
    case EditMatch(e, _, _, startsAt, edits) =>
      EditDetailsBuilds(c, SourceManual, e, startsAt, edits);
      EditStaysInStep(c, SourceManual, e, startsAt, edits);
    case GoLive(e, status) =>
      SetMatchStatusKeepsInStep(c, e, status);
      GoLiveEvolves(c, e, status);
    case FeedEvent(api) =>
      SyncEventEvolves(c, api);
      EvolvesKeepsInStep(c, next, UpsertEvent(c, api).1);
    case FeedOdds(e, quotes) =>
      ApplyEventEvolves(c, e, quotes);
      EvolvesKeepsInStep(c, next, e);
  }

  lemma EditStaysInStep(c: Catalogue, source: Source, e: nat, startsAt: Option<int>, edits: seq<OutcomeEdit>)
    requires Sane(c) && InStep(c) && EditDetails(c, source, e, startsAt, edits).Ok?
    ensures InStep(EditDetails(c, source, e, startsAt, edits).value)
  {
    hide Sane, InStep, Builds, EditOutcomes;
    EditDetailsBuilds(c, source, e, startsAt, edits);
    var moved := if startsAt.Some? then c.events[e].(startsAt := startsAt.value) else c.events[e];
    EditOutcomesKeepRows(c.(events := c.events[e := moved]), edits);
    BuildsKeepsInStep(c, EditDetails(c, source, e, startsAt, edits).value, e);
  }

  lemma {:induction false} EditOutcomesKeepRows(c: Catalogue, edits: seq<OutcomeEdit>)
    requires EditOutcomes(c, edits).Ok?
    ensures var next := EditOutcomes(c, edits).value;
      next.events == c.events && next.markets == c.markets && |next.outcomes| == |c.outcomes|
  {
    hide StoredOdds;
    if |edits| > 0 {
      EditOutcomesKeepRows(c, edits[..|edits| - 1]);
    }
  }

  lemma StakeAppendsBet(bank: Bank, bet: Bet)
    requires StakeBet(bank, bet).Ok?
    ensures StakeBet(bank, bet).value.bets == bank.bets + [bet] && bet.stake > 0
    ensures StakeBet(bank, bet).value.users == bank.users
  {
  }

  /** The bet an accepted call stakes. */
  function TakenBet(c: Catalogue, u: nat, o: nat, stake: int): Bet
    requires o < |c.outcomes| && c.outcomes[o].marketId < |c.markets|
  {
    Bet(u, o, c.markets[c.outcomes[o].marketId].eventId, stake, c.outcomes[o].odds,
        ComputePotentialPayout(stake, c.outcomes[o].odds), BetPending)
  }

  lemma PlaceStakes(db: Db, cfg: Config, now: int, u: nat, o: nat, stake: int)
    requires Sane(db.cat) && InStep(db.cat) && PlaceBet(db, cfg, now, u, o, stake).Ok?
    ensures o < |db.cat.outcomes| && db.cat.outcomes[o].marketId < |db.cat.markets|
    ensures var bet := TakenBet(db.cat, u, o, stake);
      && StakeBet(db.bank, bet).Ok? && PlaceBet(db, cfg, now, u, o, stake).value == db.(bank := StakeBet(db.bank, bet).value)
      && BetFits(db.cat, bet) && bet.odds > 1000 && bet.payout == ComputePotentialPayout(bet.stake, bet.odds)
  {
    assert SaneOutcome(db.cat, o) && OutcomeInStep(db.cat, o);
    hide ComputePotentialPayout, InStep, Sane, StakeBet;
  }

  lemma PlaceKeepsInv(db: Db, cfg: Config, now: int, u: nat, o: nat, stake: int)
    requires Inv(db, cfg) && PlaceBet(db, cfg, now, u, o, stake).Ok?
    ensures Inv(PlaceBet(db, cfg, now, u, o, stake).value, cfg)
  {
    hide BankInv, ComputePotentialPayout, InStep, Sane, StakeBet, PlaceBet, UniqueEmails, BetFits;
    PlaceStakes(db, cfg, now, u, o, stake);
    var bet := TakenBet(db.cat, u, o, stake);
    StakeAppendsBet(db.bank, bet);
    StakeKeepsBankInv(db.bank, bet, cfg.signupBonus);
  }

  lemma LinkKeepsBankInv(bank: Bank, key: (Provider, string), u: nat, bonus: int)
    requires BankInv(bank, bonus) && u < |bank.users|
    ensures BankInv(bank.(identities := bank.identities[key := u]), bonus)
  {
    hide Chained, Owned, BonusFirst;
  }

  lemma LoginKeepsBankInv(bank: Bank, provider: Provider, externalId: string, email: Option<string>, bonus: int)
    requires BankInv(bank, bonus) && LoginOrRegister(bank, provider, externalId, email, bonus).Ok?
    ensures BankInv(LoginOrRegister(bank, provider, externalId, email, bonus).value.0, bonus)
  {
    hide BankInv, Enroll, Where;
    var known := Where(bank.users, HasEmail(email));
    if (provider, externalId) !in bank.identities {
      if known != [] {
        LinkKeepsBankInv(bank, (provider, externalId), known[0], bonus);
      } else {
        var next := Enroll(bank, email, bonus).value;
        EnrollKeepsBankInv(bank, email, bonus);
        EnrollKeepsBets(bank, email, bonus);
        LinkKeepsBankInv(next, (provider, externalId), |bank.users|, bonus);
      }
    }
  }

  // ---------- settlement keeps the invariant ----------

  lemma CloseIsSound(c: Catalogue, op: Op)
    requires Closing(op) && CloseOf(c, op).Ok?
    ensures var close := CloseOf(c, op).value;
      close.e < |c.events| && Matching(close.final, close.d) && !Terminal(c.events[close.e].status) && Terminal(close.final)
  {
  }

  lemma CloseFitsBet(c: Catalogue, e: nat, final: EventStatus, d: Decision, scores: Scores, b: Bet)
    requires InStep(c) && BetFits(c, b) && e < |c.events| && !Terminal(c.events[e].status)
    ensures BetFits(Closed(c, e, final, d, scores), Resolve(Verdicts(c, e, d), b))
    ensures b.eventId == e ==> Resolve(Verdicts(c, e, d), b).status != BetPending
    ensures b.eventId != e ==> Resolve(Verdicts(c, e, d), b) == b
  {
    hide OutcomeVerdict, MarketVerdict;
    assert OutcomeInStep(c, b.outcomeId);
    assert Affects(c, e, b.outcomeId) <==> b.eventId == e;
  }

  lemma CloseKeepsInv(db: Db, cfg: Config, close: Close)
    requires Inv(db, cfg) && close.e < |db.cat.events| && Matching(close.final, close.d)
    requires !Terminal(db.cat.events[close.e].status)
    ensures Settle(db, close.e, close.final, close.d, close.scores).Ok?
    ensures Inv(Settle(db, close.e, close.final, close.d, close.scores).value, cfg)
  {
    hide OutcomeVerdict, MarketVerdict, Sane, InStep, Closed, Verdicts, Balanced, Populated, Chained, BonusFirst, Owned, Settle;
    var Close(e, final, d, scores) := close;
    SettleClosedForm(db, e, final, d, scores);
    SettleKeepsBankInv(db, close, cfg.signupBonus);
    ClosedKeepsInStep(db.cat, e, final, d, scores);
    var next := Settle(db, e, final, d, scores).value;
    forall b | 0 <= b < |next.bank.bets| ensures BetFits(next.cat, next.bank.bets[b]) {
      assert BetFits(db.cat, db.bank.bets[b]);
      CloseFitsBet(db.cat, e, final, d, scores, db.bank.bets[b]);
    }
  }

  lemma SettleKeepsBankInv(db: Db, close: Close, bonus: int)
    requires BankInv(db.bank, bonus) && close.e < |db.cat.events|
    ensures var r := Settle(db, close.e, close.final, close.d, close.scores); r.Ok? && BankInv(r.value.bank, bonus)
    ensures db.bank.ledger <= Settle(db, close.e, close.final, close.d, close.scores).value.bank.ledger
  {
    hide OutcomeVerdict, MarketVerdict, Closed, Verdicts, Balanced, Populated, Chained, BonusFirst, Owned, Settle, SettleBets;
    var verdicts := Verdicts(db.cat, close.e, close.d);
    var ids := Where(db.bank.bets, PendingOn(verdicts));
    SettleBetsKeepBankInv(db.bank, verdicts, ids, bonus);
    SettleBetsAppend(db.bank, verdicts, ids);
    SettleUnfolds(db, close.e, close.final, close.d, close.scores, SettleBets(db.bank, verdicts, ids).value);
  }

  lemma {:induction false} SettleBetsAppend(bank: Bank, results: map<nat, Result>, ids: seq<nat>)
    requires forall i :: 0 <= i < |ids| ==> ids[i] < |bank.bets|
    ensures SettleBets(bank, results, ids).Ok? ==> bank.ledger <= SettleBets(bank, results, ids).value.ledger
  {
    if |ids| > 0 {
      SettleBetsAppend(bank, results, ids[..|ids| - 1]);
    }
  }

  // ---------- every step, every run ----------

  lemma EnrollKeepsBets(bank: Bank, email: Option<string>, bonus: int)
    requires Enroll(bank, email, bonus).Ok?
    ensures var next := Enroll(bank, email, bonus).value;
      && next.bets == bank.bets && bank.ledger <= next.ledger && next.identities == bank.identities
      && bank.users <= next.users && |next.users| == |bank.users| + 1
  {
  }

  lemma AdjustKeepsBets(bank: Bank, u: nat, amount: int)
    requires AdjustBalance(bank, u, amount).Ok?
    ensures var next := AdjustBalance(bank, u, amount).value;
      next.bets == bank.bets && bank.ledger <= next.ledger && next.users == bank.users && next.identities == bank.identities
  {
  }

  lemma LoginKeepsBets(bank: Bank, provider: Provider, externalId: string, email: Option<string>, bonus: int)
    requires LoginOrRegister(bank, provider, externalId, email, bonus).Ok?
    ensures var next := LoginOrRegister(bank, provider, externalId, email, bonus).value.0;
      && next.bets == bank.bets && bank.ledger <= next.ledger && bank.users <= next.users
      && forall key :: key in bank.identities ==> key in next.identities && next.identities[key] == bank.identities[key]
  {
    hide Enroll, Where;
    if (provider, externalId) !in bank.identities && Where(bank.users, HasEmail(email)) == [] {
      EnrollKeepsBets(bank, email, bonus);
    }
  }

  lemma StepKeepsInv(db: Db, cfg: Config, op: Op)
    requires Inv(db, cfg)
    ensures Inv(Exec(db, cfg, op), cfg)
  {
    hide Sane, InStep, BankInv, BetsFit, Settle, CloseOf, StepCatalogue, PlaceBet, AdjustBalance, LoginOrRegister, Enroll;
    if Step(db, cfg, op).Ok? {
      if Closing(op) {
        CloseIsSound(db.cat, op);
        CloseKeepsInv(db, cfg, CloseOf(db.cat, op).value);
      } else if CatalogueOnly(op) {
        CatalogueStepEvolves(db.cat, op);
        BetsFitEvolves(db.cat, StepCatalogue(db.cat, op).value, Touched(db.cat, op), db.bank.bets);
      } else {
        match op
        case Place(now, user, outcome, stake) => PlaceKeepsInv(db, cfg, now, user, outcome, stake);
        case Register(email) =>
          EnrollKeepsBankInv(db.bank, Some(email), cfg.signupBonus);
          EnrollKeepsEmails(db.bank, Some(email), cfg.signupBonus);
          EnrollKeepsBets(db.bank, Some(email), cfg.signupBonus);
        case Adjust(user, amount) =>
          AdjustKeepsBankInv(db.bank, user, amount, cfg.signupBonus);
          AdjustKeepsBets(db.bank, user, amount);
        case Login(provider, externalId, email) =>
          LoginKeepsBankInv(db.bank, provider, externalId, email, cfg.signupBonus);
          LoginKeepsEmails(db.bank, provider, externalId, email, cfg.signupBonus);
          LoginKeepsBets(db.bank, provider, externalId, email, cfg.signupBonus);
      }
    }
  }

  lemma EmptyIsInv(cfg: Config)
    ensures Inv(EMPTY, cfg)
  {
    var bank := EMPTY.bank;
    forall b: nat ensures RowsOf(bank.ledger, b) == DueOf(bank.bets, b) {
    }
    assert Owned(bank.bets, bank.ledger);
  }

  lemma {:induction false} RunKeepsInv(db: Db, cfg: Config, ops: seq<Op>)
    requires Inv(db, cfg)
    ensures Inv(Run(db, cfg, ops), cfg)
    decreases |ops|
  {
    hide Inv, Exec;
    if |ops| > 0 {
      StepKeepsInv(db, cfg, ops[0]);
      RunKeepsInv(Exec(db, cfg, ops[0]), cfg, ops[1..]);
    }
  }

  /** Every state a run of service calls reaches from the empty database satisfies the invariant. */
  lemma ReachableKeepsInv(cfg: Config, ops: seq<Op>)
    ensures Inv(Run(EMPTY, cfg, ops), cfg)
  {
    EmptyIsInv(cfg);
    RunKeepsInv(EMPTY, cfg, ops);
  }

  /** The verdict for a totals market without a line never decides a bet: the market of every such bet has one. */
  lemma EveryTotalsBetHasALine(db: Db, cfg: Config, b: nat)
    requires Inv(db, cfg) && b < |db.bank.bets|
    ensures var bet := db.bank.bets[b];
      && bet.outcomeId < |db.cat.outcomes| && db.cat.outcomes[bet.outcomeId].marketId < |db.cat.markets|
      && var market := db.cat.markets[db.cat.outcomes[bet.outcomeId].marketId];
         market.kind == MarketTotals ==> market.line.Some?
  {
    hide BankInv, InStep;
    assert BetFits(db.cat, db.bank.bets[b]) && SaneOutcome(db.cat, db.bank.bets[b].outcomeId);
  }

  // ---------- what never changes again ----------

  predicate ClosedAdminEvent(c: Catalogue, e: nat) {
    e < |c.events| && c.events[e].source != SourceOddsAPI && Terminal(c.events[e].status)
  }

  /** A settled or cancelled admin event keeps its status, its markets' statuses and its outcomes' results. */
  ghost predicate Absorbed(c: Catalogue, later: Catalogue, e: nat) {
    ClosedAdminEvent(c, e) ==>
      && ClosedAdminEvent(later, e) && later.events[e].status == c.events[e].status
      && (forall m :: 0 <= m < |later.markets| && later.markets[m].eventId == e ==>
            m < |c.markets| && c.markets[m].eventId == e && later.markets[m].status == c.markets[m].status)
      && (forall o :: 0 <= o < |c.outcomes| && Affects(c, e, o) ==>
            Affects(later, e, o) && later.outcomes[o].result == c.outcomes[o].result)
  }

  ghost predicate Later(db: Db, later: Db) {
    && db.bank.users <= later.bank.users && db.bank.ledger <= later.bank.ledger
    && (forall key :: key in db.bank.identities ==>
          key in later.bank.identities && later.bank.identities[key] == db.bank.identities[key])
    && |db.bank.bets| <= |later.bank.bets|
    && (forall b :: 0 <= b < |db.bank.bets| ==> FrozenBet(db.bank.bets[b], later.bank.bets[b]))
    && (forall e :: Absorbed(db.cat, later.cat, e))
  }

  lemma LaterTransitive(a: Db, b: Db, c: Db)
    requires Later(a, b) && Later(b, c)
    ensures Later(a, c)
  {
    forall e ensures Absorbed(a.cat, c.cat, e) {
      assert Absorbed(a.cat, b.cat, e) && Absorbed(b.cat, c.cat, e);
    }
    forall i | 0 <= i < |a.bank.bets| ensures FrozenBet(a.bank.bets[i], c.bank.bets[i]) {
      assert FrozenBet(a.bank.bets[i], b.bank.bets[i]) && FrozenBet(b.bank.bets[i], c.bank.bets[i]);
    }
  }

  lemma EvolvesAbsorbs(c: Catalogue, next: Catalogue, touched: nat, e: nat)
    requires Evolves(c, next, touched) && (ClosedAdminEvent(c, e) ==> e != touched)
    ensures Absorbed(c, next, e)
  {
    if ClosedAdminEvent(c, e) {
      assert SameEvent(c, next, touched, e);
      forall m | 0 <= m < |next.markets| && next.markets[m].eventId == e
        ensures m < |c.markets| && c.markets[m].eventId == e && next.markets[m].status == c.markets[m].status
      {
        assert MarketEvolves(c, next, touched, m);
      }
      forall o | 0 <= o < |c.outcomes| && Affects(c, e, o)
        ensures Affects(next, e, o) && next.outcomes[o].result == c.outcomes[o].result
      {
        assert OutcomeEvolves(c, next, touched, o) && MarketEvolves(c, next, touched, c.outcomes[o].marketId);
      }
    }
  }

  lemma TouchedIsOpen(c: Catalogue, op: Op)
    requires CatalogueOnly(op) && StepCatalogue(c, op).Ok?
    ensures !ClosedAdminEvent(c, Touched(c, op))
  {
    hide AddMarkets, AddMarket, EditOutcomes, ApplyEvent, EnsureMarket;
    if op.FeedEvent? && Touched(c, op) < |c.events| {
      assert Feed(op.api.externalId)(c.events[Touched(c, op)]);
    }
  }

  lemma CloseAbsorbs(c: Catalogue, close: Close, e: nat)
    requires close.e < |c.events| && !Terminal(c.events[close.e].status)
    ensures Absorbed(c, Closed(c, close.e, close.final, close.d, close.scores), e)
  {
    hide OutcomeVerdict, MarketVerdict;
  }

  lemma PlaceIsLater(db: Db, cfg: Config, now: int, u: nat, o: nat, stake: int)
    requires PlaceBet(db, cfg, now, u, o, stake).Ok?
    ensures var next := PlaceBet(db, cfg, now, u, o, stake).value;
      && Later(db, next) && next.cat == db.cat
      && next.bank.bets == db.bank.bets + [next.bank.bets[|db.bank.bets|]]
  {
    hide ComputePotentialPayout;
  }

  lemma StepIsLater(db: Db, cfg: Config, op: Op)
    requires Inv(db, cfg)
    ensures Later(db, Exec(db, cfg, op))
  {
    hide InStep, BankInv, BetsFit, Settle, CloseOf, StepCatalogue, PlaceBet, AdjustBalance, LoginOrRegister, Enroll,
      Evolves, Verdicts, Closed, Absorbed, Sane;
    var next := Exec(db, cfg, op);
    forall e ensures Absorbed(db.cat, next.cat, e) {
      NothingChangedAbsorbs(db.cat, e);
      if Step(db, cfg, op).Ok? {
        if Closing(op) {
          CloseIsSound(db.cat, op);
          var close := CloseOf(db.cat, op).value;
          CloseSettles(db, cfg, close);
          CloseAbsorbs(db.cat, close, e);
        } else if CatalogueOnly(op) {
          CatalogueStepEvolves(db.cat, op);
          TouchedIsOpen(db.cat, op);
          EvolvesAbsorbs(db.cat, next.cat, Touched(db.cat, op), e);
        } else if op.Place? {
          PlaceIsLater(db, cfg, op.now, op.user, op.outcome, op.stake);
        }
      }
    }
    if Step(db, cfg, op).Ok? {
      if Closing(op) {
        CloseIsSound(db.cat, op);
        CloseSettles(db, cfg, CloseOf(db.cat, op).value);
      } else if !CatalogueOnly(op) {
        match op
        case Place(now, user, outcome, stake) => PlaceIsLater(db, cfg, now, user, outcome, stake);
        case Register(email) => EnrollKeepsBets(db.bank, Some(email), cfg.signupBonus);
        case Adjust(user, amount) => AdjustKeepsBets(db.bank, user, amount);
        case Login(provider, externalId, email) =>
          LoginKeepsBets(db.bank, provider, externalId, email, cfg.signupBonus);
      }
    }
  }

  lemma NothingChangedAbsorbs(c: Catalogue, e: nat)
    ensures Absorbed(c, c, e)
  {
  }

  lemma CloseSettles(db: Db, cfg: Config, close: Close)
    requires Inv(db, cfg) && close.e < |db.cat.events|
    ensures var r := Settle(db, close.e, close.final, close.d, close.scores);
      && r.Ok? && r.value.cat == Closed(db.cat, close.e, close.final, close.d, close.scores)
      && r.value.bank.bets == Resolved(db.bank.bets, Verdicts(db.cat, close.e, close.d))
      && r.value.bank.users == db.bank.users && r.value.bank.identities == db.bank.identities
      && db.bank.ledger <= r.value.bank.ledger
  {
    hide OutcomeVerdict, MarketVerdict, InStep, Sane, BetsFit, Balanced, Populated, Chained, BonusFirst, Owned, Settle, Closed;
    SettleClosedForm(db, close.e, close.final, close.d, close.scores);
    SettleKeepsBankInv(db, close, cfg.signupBonus);
  }

  /**
   * Over any run the ledger only grows, identities keep their user, placed bets keep their stake, price and
   * payout, decided bets and closed admin events never change again.
   */
  lemma {:induction false} RunIsLater(db: Db, cfg: Config, ops: seq<Op>)
    requires Inv(db, cfg)
    ensures Later(db, Run(db, cfg, ops))
    decreases |ops|
  {
    hide Inv, Exec, Later;
    if |ops| == 0 {
      NothingIsLater(db);
    } else {
      var next := Exec(db, cfg, ops[0]);
      StepIsLater(db, cfg, ops[0]);
      StepKeepsInv(db, cfg, ops[0]);
      RunIsLater(next, cfg, ops[1..]);
      LaterTransitive(db, next, Run(next, cfg, ops[1..]));
    }
  }

  lemma NothingIsLater(db: Db)
    ensures Later(db, db)
  {
  }

  /** One identity, one account, one bonus: after a login the same identity always returns the same user and writes nothing. */
  lemma LoginRegistersOnce(db: Db, cfg: Config, provider: Provider, externalId: string, email: Option<string>,
                           ops: seq<Op>, email': Option<string>)
    requires Inv(db, cfg)
    requires LoginOrRegister(db.bank, provider, externalId, email, cfg.signupBonus).Ok?
    ensures var (bank, u) := LoginOrRegister(db.bank, provider, externalId, email, cfg.signupBonus).value;
            var later := Run(db.(bank := bank), cfg, ops);
      LoginOrRegister(later.bank, provider, externalId, email', cfg.signupBonus) == Ok((later.bank, u))
  {
    hide Sane, InStep, BetsFit, SoundBets, Chained, BonusFirst, Owned, Balanced, Exec, Run;
    var op := Login(provider, externalId, email);
    StepKeepsInv(db, cfg, op);
    LoginIsStep(db, cfg, provider, externalId, email);
    var (bank, u) := LoginOrRegister(db.bank, provider, externalId, email, cfg.signupBonus).value;
    var next := db.(bank := bank);
    LoginLinks(db.bank, provider, externalId, email, cfg.signupBonus);
    RunIsLater(next, cfg, ops);
    RunKeepsInv(next, cfg, ops);
  }

  lemma LoginIsStep(db: Db, cfg: Config, provider: Provider, externalId: string, email: Option<string>)
    requires LoginOrRegister(db.bank, provider, externalId, email, cfg.signupBonus).Ok?
    ensures Exec(db, cfg, Login(provider, externalId, email))
         == db.(bank := LoginOrRegister(db.bank, provider, externalId, email, cfg.signupBonus).value.0)
  {
    hide LoginOrRegister;
  }

  lemma LoginLinks(bank: Bank, provider: Provider, externalId: string, email: Option<string>, bonus: int)
    requires LoginOrRegister(bank, provider, externalId, email, bonus).Ok?
    ensures var (next, u) := LoginOrRegister(bank, provider, externalId, email, bonus).value;
      (provider, externalId) in next.identities && next.identities[(provider, externalId)] == u
  {
    hide Enroll;
  }

  // ---------- no bet is left behind ----------

  predicate Stuck(c: Catalogue, b: Bet) {
    b.status == BetPending && b.eventId < |c.events| && Terminal(c.events[b.eventId].status)
  }

  ghost predicate NoneStuck(db: Db) {
    forall b :: 0 <= b < |db.bank.bets| ==> !Stuck(db.cat, db.bank.bets[b])
  }

  /** The feed reports a final status for an event that still has pending bets. */
  ghost predicate Strands(db: Db, op: Op) {
    && op.FeedEvent? && Terminal(op.api.status)
    && exists b :: 0 <= b < |db.bank.bets| && db.bank.bets[b].status == BetPending
                   && db.bank.bets[b].eventId == UpsertEvent(db.cat, op.api).1
  }

  function StatusAfter(c: Catalogue, op: Op, e: nat): EventStatus
    requires e < |c.events|
  {
    if op.FeedEvent? && e == UpsertEvent(c, op.api).1 then op.api.status
    else if op.GoLive? && e == op.e then EventLive
    else c.events[e].status
  }

  ghost predicate StatusesFollow(c: Catalogue, next: Catalogue, op: Op) {
    |c.events| <= |next.events| && forall e :: 0 <= e < |c.events| ==> next.events[e].status == StatusAfter(c, op, e)
  }

  lemma CatalogueStepStatuses(c: Catalogue, op: Op)
    requires Sane(c) && InStep(c) && CatalogueOnly(op) && StepCatalogue(c, op).Ok?
    ensures StatusesFollow(c, StepCatalogue(c, op).value, op)
  {
    hide Sane, InStep, AddMarkets, AddMarket, EditOutcomes, ApplyEvent, UpsertEvent, EnsureMarket;
    var next := StepCatalogue(c, op).value;
    match op
    case NewMatch(_, input) =>
      AddMarketsKeepEvents(InsertEvent(c, SourceManual, None, input.startsAt.value, EventUpcoming, NoScores),
                           |c.events|, input.markets);
    case NewCustom(input) =>
      AddMarketKeepsEvents(InsertEvent(c, SourceCustom, None, input.startsAt.value, EventUpcoming, NoScores),
                           |c.events|, CustomMarket(input));
    case EditCustom(e, _, startsAt, edits) =>
      EditOutcomesKeepRows(c.(events := c.events[e := MovedTo(c.events[e], startsAt)]), edits);
    case EditMatch(e, _, _, startsAt, edits) =>
      EditOutcomesKeepRows(c.(events := c.events[e := MovedTo(c.events[e], startsAt)]), edits);
    case GoLive(e, status) =>
    case FeedEvent(api) =>
      SyncEventEvolves(c, api);
      forall e | 0 <= e < |c.events| && e != UpsertEvent(c, api).1
        ensures next.events[e].status == c.events[e].status
      {
        assert SameEvent(c, next, UpsertEvent(c, api).1, e);
      }
    case FeedOdds(e, quotes) =>
      ApplyEventEvolves(c, e, quotes);
  }

  function MovedTo(ev: Event, startsAt: Option<int>): Event {
    if startsAt.Some? then ev.(startsAt := startsAt.value) else ev
  }

  /** A step leaves no pending bet on a closed event, unless the feed overwrites the status of an event with pending bets. */
  lemma StepStrandsExactlyWhen(db: Db, cfg: Config, op: Op)
    requires Inv(db, cfg) && NoneStuck(db)
    ensures NoneStuck(Exec(db, cfg, op)) <==> !Strands(db, op)
  {
    hide Sane, InStep, BankInv, Settle, CloseOf, StepCatalogue, PlaceBet, AdjustBalance, LoginOrRegister, Enroll,
      Evolves, Verdicts, Closed, UpsertEvent;
    var next := Exec(db, cfg, op);
    if Step(db, cfg, op).Ok? {
      if Closing(op) {
        CloseIsSound(db.cat, op);
        CloseLeavesNoneStuck(db, cfg, CloseOf(db.cat, op).value);
      } else if CatalogueOnly(op) {
        CatalogueStepStatuses(db.cat, op);
        FeedStatusDecides(db, next, op);
      } else {
        match op
        case Place(now, user, outcome, stake) =>
          PlaceLeavesNoneStuck(db, cfg, now, user, outcome, stake);
        case Register(email) => EnrollKeepsBets(db.bank, Some(email), cfg.signupBonus);
        case Adjust(user, amount) => AdjustKeepsBets(db.bank, user, amount);
        case Login(provider, externalId, email) =>
          LoginKeepsBets(db.bank, provider, externalId, email, cfg.signupBonus);
      }
    } else {
      FeedNeverFails(db, cfg, op);
    }
  }

  lemma FeedNeverFails(db: Db, cfg: Config, op: Op)
    ensures op.FeedEvent? ==> Step(db, cfg, op).Ok?
  {
    hide SyncEvent, UpsertEvent;
  }

  lemma FeedStatusDecides(db: Db, next: Db, op: Op)
    requires NoneStuck(db) && next.bank == db.bank && BetsFit(db.cat, db.bank.bets)
    requires StatusesFollow(db.cat, next.cat, op)
    ensures NoneStuck(next) <==> !Strands(db, op)
  {
    hide UpsertEvent;
    forall b | 0 <= b < |db.bank.bets|
      ensures BetFits(db.cat, db.bank.bets[b]) && !Stuck(db.cat, db.bank.bets[b])
    {
    }
    if Strands(db, op) {
      var b :| 0 <= b < |db.bank.bets| && db.bank.bets[b].status == BetPending
               && db.bank.bets[b].eventId == UpsertEvent(db.cat, op.api).1;
      assert BetFits(db.cat, db.bank.bets[b]) && Stuck(next.cat, next.bank.bets[b]);
    } else {
      forall b | 0 <= b < |next.bank.bets| ensures !Stuck(next.cat, next.bank.bets[b]) {
        assert BetFits(db.cat, db.bank.bets[b]);
      }
    }
  }

  lemma PlaceLeavesNoneStuck(db: Db, cfg: Config, now: int, u: nat, o: nat, stake: int)
    requires NoneStuck(db) && PlaceBet(db, cfg, now, u, o, stake).Ok?
    ensures NoneStuck(PlaceBet(db, cfg, now, u, o, stake).value)
  {
    hide ComputePotentialPayout;
  }

  lemma CloseLeavesNoneStuck(db: Db, cfg: Config, close: Close)
    requires Inv(db, cfg) && NoneStuck(db) && close.e < |db.cat.events| && !Terminal(db.cat.events[close.e].status)
    ensures Settle(db, close.e, close.final, close.d, close.scores).Ok?
    ensures NoneStuck(Settle(db, close.e, close.final, close.d, close.scores).value)
  {
    hide Sane, BankInv, Settle, Verdicts, OutcomeVerdict, MarketVerdict;
    CloseSettles(db, cfg, close);
    forall b | 0 <= b < |db.bank.bets|
      ensures !Stuck(Closed(db.cat, close.e, close.final, close.d, close.scores),
                     Resolve(Verdicts(db.cat, close.e, close.d), db.bank.bets[b]))
    {
      assert BetFits(db.cat, db.bank.bets[b]) && !Stuck(db.cat, db.bank.bets[b]);
      CloseFitsBet(db.cat, close.e, close.final, close.d, close.scores, db.bank.bets[b]);
    }
  }

  /** While the feed honours its pending/live filter, no run leaves a pending bet on a settled or cancelled event. */
  lemma {:induction false} RunLeavesNoneStuck(db: Db, cfg: Config, ops: seq<Op>)
    requires Inv(db, cfg) && NoneStuck(db)
    requires forall i :: 0 <= i < |ops| && ops[i].FeedEvent? ==> !Terminal(ops[i].api.status)
    ensures NoneStuck(Run(db, cfg, ops))
    decreases |ops|
  {
    hide Inv, Exec, NoneStuck, UpsertEvent;
    if |ops| > 0 {
      StepStrandsExactlyWhen(db, cfg, ops[0]);
      StepKeepsInv(db, cfg, ops[0]);
      RunLeavesNoneStuck(Exec(db, cfg, ops[0]), cfg, ops[1..]);
    }
  }
}
