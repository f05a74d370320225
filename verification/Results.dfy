/** What closing an event means for its rows and for every bet on it, score by score and outcome by outcome. */
module Results {
  import opened Domain
  import opened BankOps
  import opened Ledger
  import opened Plans
  import opened Settlement
  import opened Service
  import Interleaving
  import Runs

  // ---------- who wins ----------

  /** The match goes to home, to away, or to neither. */
  lemma MatchGoesTo(c: Catalogue, o: nat, home: int, away: int)
    requires o < |c.outcomes| && c.outcomes[o].marketId < |c.markets| && c.markets[c.outcomes[o].marketId].kind == MarketML
    ensures var code, result := c.outcomes[o].code, OutcomeVerdict(c, ByScore(home, away), o);
      && (code == OutcomeHome ==> result == if home > away then ResultWon else ResultLost)
      && (code == OutcomeAway ==> result == if away > home then ResultWon else ResultLost)
      && (code == OutcomeDraw ==> result == if home == away then ResultWon else ResultLost)
      && (code != OutcomeHome && code != OutcomeAway && code != OutcomeDraw ==> result == ResultLost)
  {
  }

  /** Over and under against the line, in hundredths. */
  lemma TotalGoesTo(c: Catalogue, o: nat, home: int, away: int)
    requires o < |c.outcomes| && c.outcomes[o].marketId < |c.markets|
    requires var m := c.markets[c.outcomes[o].marketId]; m.kind == MarketTotals && m.line.Some?
    ensures var code, result := c.outcomes[o].code, OutcomeVerdict(c, ByScore(home, away), o);
            var total, line := 100 * home + 100 * away, c.markets[c.outcomes[o].marketId].line.value;
      && (total == line ==> result == ResultVoid)
      && (total != line && code == OutcomeOver ==> result == if total > line then ResultWon else ResultLost)
      && (total != line && code == OutcomeUnder ==> result == if total < line then ResultWon else ResultLost)
      && (total != line && code != OutcomeOver && code != OutcomeUnder ==> result == ResultLost)
  {
  }

  /** A custom market is not decided by a score, and a cancelled event decides nothing. */
  lemma NobodyWins(c: Catalogue, o: nat, home: int, away: int)
    requires o < |c.outcomes| && c.outcomes[o].marketId < |c.markets|
    ensures c.markets[c.outcomes[o].marketId].kind == MarketCustom ==> OutcomeVerdict(c, ByScore(home, away), o) == ResultVoid
    ensures OutcomeVerdict(c, Cancellation, o) == ResultVoid
  {
  }

  /** The outcome the admin names wins, the others of its market lose, and every other market is void. */
  lemma NamedWins(c: Catalogue, winner: nat, o: nat)
    requires o < |c.outcomes| && c.outcomes[o].marketId < |c.markets|
    ensures var result := OutcomeVerdict(c, ByWinner(winner), o);
      && (o == winner ==> result == ResultWon)
      && (o != winner && winner < |c.outcomes| && c.outcomes[winner].marketId == c.outcomes[o].marketId ==> result == ResultLost)
      && (winner >= |c.outcomes| || c.outcomes[winner].marketId != c.outcomes[o].marketId ==> result == ResultVoid)
  {
  }

  // ---------- what happens to one bet ----------

  /** Exactly one row since then names the bet: this amount, of this kind, to the bet's user. */
  ghost predicate CreditedOnce(bank: Bank, next: Bank, b: nat, kind: TxType, amount: int)
    requires b < |bank.bets| && |bank.ledger| <= |next.ledger|
  {
    exists k ::
      && |bank.ledger| <= k < |next.ledger| && next.ledger[k].betId == Some(b)
      && next.ledger[k].userId == bank.bets[b].userId && next.ledger[k].kind == kind && next.ledger[k].amount == amount
      && forall j :: |bank.ledger| <= j < |next.ledger| && j != k ==> next.ledger[j].betId != Some(b)
  }

  /** No row since then names the bet. */
  ghost predicate NotCredited(bank: Bank, next: Bank, b: nat) {
    forall j :: |bank.ledger| <= j < |next.ledger| ==> next.ledger[j].betId != Some(b)
  }

  /** The bet is won and its payout credited, lost and nothing credited, or void and its stake credited. */
  ghost predicate Decided(bank: Bank, next: Bank, b: nat, result: Result) {
    && b < |bank.bets| == |next.bets| && bank.ledger <= next.ledger
    && match result
       case ResultWon => next.bets[b] == bank.bets[b].(status := BetWon) && CreditedOnce(bank, next, b, TxBetPayout, bank.bets[b].payout)
       case ResultLost => next.bets[b] == bank.bets[b].(status := BetLost) && NotCredited(bank, next, b)
       case ResultVoid => next.bets[b] == bank.bets[b].(status := BetVoid) && CreditedOnce(bank, next, b, TxBetRefund, bank.bets[b].stake)
  }

  lemma {:induction false} NoRowsNamesNone(ledger: seq<LedgerRow>, b: nat)
    requires RowsOf(ledger, b) == []
    ensures forall j :: 0 <= j < |ledger| ==> ledger[j].betId != Some(b)
  {
    if |ledger| > 0 {
      NoRowsNamesNone(ledger[..|ledger| - 1], b);
    }
  }

  lemma {:induction false} OneRowNamesOne(ledger: seq<LedgerRow>, b: nat, row: (nat, TxType, int)) returns (k: nat)
    requires RowsOf(ledger, b) == [row]
    ensures k < |ledger| && ledger[k].betId == Some(b) && (ledger[k].userId, ledger[k].kind, ledger[k].amount) == row
    ensures forall j :: 0 <= j < |ledger| && j != k ==> ledger[j].betId != Some(b)
  {
    var front, last := ledger[..|ledger| - 1], ledger[|ledger| - 1];
    if last.betId == Some(b) {
      k := |ledger| - 1;
      assert RowsOf(ledger, b)[|RowsOf(front, b)|] == (last.userId, last.kind, last.amount);
      NoRowsNamesNone(front, b);
    } else {
      k := OneRowNamesOne(front, b, row);
    }
  }

  lemma CreditIsOnce(bank: Bank, next: Bank, b: nat, row: (nat, TxType, int))
    requires b < |bank.bets| && bank.ledger <= next.ledger && row.0 == bank.bets[b].userId
    requires RowsOf(next.ledger[|bank.ledger|..], b) == [row]
    ensures CreditedOnce(bank, next, b, row.1, row.2)
  {
    var since := next.ledger[|bank.ledger|..];
    var k := OneRowNamesOne(since, b, row);
    var at := |bank.ledger| + k;
    assert next.ledger[at] == since[k];
    forall j | |bank.ledger| <= j < |next.ledger| && j != at ensures next.ledger[j].betId != Some(b) {
      assert next.ledger[j] == since[j - |bank.ledger|];
    }
  }

  lemma NoCreditSince(bank: Bank, next: Bank, b: nat)
    requires bank.ledger <= next.ledger && RowsOf(next.ledger[|bank.ledger|..], b) == []
    ensures NotCredited(bank, next, b)
  {
    var since := next.ledger[|bank.ledger|..];
    NoRowsNamesNone(since, b);
    forall j | |bank.ledger| <= j < |next.ledger| ensures next.ledger[j].betId != Some(b) {
      assert next.ledger[j] == since[j - |bank.ledger|];
    }
  }

  lemma OwnRows(bank: Bank, bonus: int, b: nat)
    requires BankInv(bank, bonus) && b < |bank.bets|
    ensures RowsOf(bank.ledger, b) == [(bank.bets[b].userId, TxBetStake, -bank.bets[b].stake)] + CreditRows(bank.bets[b], bank.bets[b].status)
  {
    hide Chained, BonusFirst, Balanced, Populated, RowsOf, CreditRows;
    assert RowsOf(bank.ledger, b) == DueOf(bank.bets, b);
  }

  lemma SameFront(x: (nat, TxType, int), a: seq<(nat, TxType, int)>, b: seq<(nat, TxType, int)>)
    requires [x] + a == [x] + b
    ensures a == b
  {
    assert a == ([x] + a)[1..] && b == ([x] + b)[1..];
  }

  /** The rows that name a bet since then, when its new status asks for some more. */
  lemma RowsSince(bank: Bank, next: Bank, bonus: int, b: nat, status: BetStatus)
    requires BankInv(bank, bonus) && BankInv(next, bonus) && bank.ledger <= next.ledger && |bank.bets| == |next.bets|
    requires b < |bank.bets| && bank.bets[b].status == BetPending && next.bets[b] == bank.bets[b].(status := status)
    ensures RowsOf(next.ledger[|bank.ledger|..], b) == CreditRows(bank.bets[b], status)
  {
    hide BankInv, RowsOf, CreditRows;
    var bet, since := bank.bets[b], next.ledger[|bank.ledger|..];
    assert next.ledger == bank.ledger + since;
    Interleaving.RowsOfConcat(bank.ledger, since, b);
    OwnRows(bank, bonus, b);
    OwnRows(next, bonus, b);
    PendingIsNotCredited(bet);
    CreditIgnoresStatus(bet, status);
    var stake := (bet.userId, TxBetStake, -bet.stake);
    assert [stake] + [] == [stake];
    SameFront(stake, RowsOf(since, b), CreditRows(bet, status));
  }

  lemma PendingIsNotCredited(bet: Bet)
    ensures CreditRows(bet, BetPending) == []
  {
  }

  lemma CreditIgnoresStatus(bet: Bet, status: BetStatus)
    ensures CreditRows(bet.(status := status), status) == CreditRows(bet, status)
  {
  }

  /** Between two sound books in which only its status moved, a bet is credited what its new status is worth. */
  lemma BooksDecide(bank: Bank, next: Bank, bonus: int, b: nat, result: Result)
    requires BankInv(bank, bonus) && BankInv(next, bonus) && bank.ledger <= next.ledger && |bank.bets| == |next.bets|
    requires b < |bank.bets| && bank.bets[b].status == BetPending && next.bets[b] == bank.bets[b].(status := BetStatusFromResult(result))
    ensures Decided(bank, next, b, result)
  {
    hide BankInv, RowsOf, CreditedOnce, NotCredited;
    var bet := bank.bets[b];
    RowsSince(bank, next, bonus, b, BetStatusFromResult(result));
    match result
    case ResultWon => CreditIsOnce(bank, next, b, (bet.userId, TxBetPayout, bet.payout));
    case ResultLost => NoCreditSince(bank, next, b);
    case ResultVoid => CreditIsOnce(bank, next, b, (bet.userId, TxBetRefund, bet.stake));
  }

  // ---------- the three settlement calls, bet by bet ----------

  /** The bet is pending on an outcome of the event, in a market of that kind. */
  predicate PendingIn(db: Db, b: nat, e: nat, kind: MarketType) {
    && b < |db.bank.bets| && db.bank.bets[b].status == BetPending && db.bank.bets[b].outcomeId < |db.cat.outcomes|
    && var m := db.cat.outcomes[db.bank.bets[b].outcomeId].marketId;
       m < |db.cat.markets| && db.cat.markets[m].eventId == e && db.cat.markets[m].kind == kind
  }

  /** Any closing decides every pending bet of the event by its outcome's verdict. */
  lemma CloseDecides(db: Db, cfg: Config, close: Close, b: nat, kind: MarketType)
    requires Runs.Inv(db, cfg) && close.e < |db.cat.events| && PendingIn(db, b, close.e, kind)
    ensures var r := Settle(db, close.e, close.final, close.d, close.scores); var o := db.bank.bets[b].outcomeId;
      && r.Ok? && Decided(db.bank, r.value.bank, b, OutcomeVerdict(db.cat, close.d, o))
      && o < |r.value.cat.outcomes| && r.value.cat.outcomes[o] == db.cat.outcomes[o].(result := Some(OutcomeVerdict(db.cat, close.d, o)))
  {
    hide Runs.Inv, Settle, OutcomeVerdict, MarketVerdict, BankInv, Decided;
    var o := db.bank.bets[b].outcomeId;
    Runs.CloseSettles(db, cfg, close);
    SettleKeepsBooks(db, cfg, close);
    assert o in Verdicts(db.cat, close.e, close.d);
    var next := Settle(db, close.e, close.final, close.d, close.scores).value;
    hide Verdicts;
    BooksDecide(db.bank, next.bank, cfg.signupBonus, b, OutcomeVerdict(db.cat, close.d, o));
  }

  lemma SettleKeepsBooks(db: Db, cfg: Config, close: Close)
    requires Runs.Inv(db, cfg) && close.e < |db.cat.events|
    ensures var r := Settle(db, close.e, close.final, close.d, close.scores);
      r.Ok? && BankInv(db.bank, cfg.signupBonus) && BankInv(r.value.bank, cfg.signupBonus) && db.bank.ledger <= r.value.bank.ledger
  {
    hide BankInv, Settle;
    Runs.SettleKeepsBankInv(db, close, cfg.signupBonus);
  }

  /** The code of the bet's outcome, and the line of its market. */
  function CodeOf(db: Db, b: nat): OutcomeCode
    requires b < |db.bank.bets| && db.bank.bets[b].outcomeId < |db.cat.outcomes|
  {
    db.cat.outcomes[db.bank.bets[b].outcomeId].code
  }

  function LineOf(db: Db, b: nat): Option<int>
    requires b < |db.bank.bets| && db.bank.bets[b].outcomeId < |db.cat.outcomes|
    requires db.cat.outcomes[db.bank.bets[b].outcomeId].marketId < |db.cat.markets|
  {
    db.cat.markets[db.cat.outcomes[db.bank.bets[b].outcomeId].marketId].line
  }

  lemma ScoreIsClose(db: Db, e: nat, home: int, away: int)
    requires home >= 0 && away >= 0
    ensures SettleEvent(db, e, EventSettled, Decoded(home, away))
         == Settle(db, e, EventSettled, ByScore(home, away), Decoded(home, away))
  {
    hide ApplyPlan, PlanOf;
  }

  /** A final score pays a bet on the match exactly when the match goes to its side. */
  lemma ScoreDecidesMatchBet(db: Db, cfg: Config, e: nat, home: int, away: int, b: nat)
    requires Runs.Inv(db, cfg) && e < |db.cat.events| && home >= 0 && away >= 0 && PendingIn(db, b, e, MarketML)
    ensures var r, code := SettleEvent(db, e, EventSettled, Decoded(home, away)), CodeOf(db, b);
      && r.Ok?
      && Decided(db.bank, r.value.bank, b,
           if (code == OutcomeHome && home > away) || (code == OutcomeAway && away > home) || (code == OutcomeDraw && home == away)
           then ResultWon else ResultLost)
  {
    hide Runs.Inv, Settle, SettleEvent, OutcomeVerdict, Decided;
    ScoreIsClose(db, e, home, away);
    CloseDecides(db, cfg, Close(e, EventSettled, ByScore(home, away), Decoded(home, away)), b, MarketML);
    MatchGoesTo(db.cat, db.bank.bets[b].outcomeId, home, away);
  }

  /** A final score pays over above the line and under below it, and refunds every bet when it falls on the line. */
  lemma ScoreDecidesTotalsBet(db: Db, cfg: Config, e: nat, home: int, away: int, b: nat)
    requires Runs.Inv(db, cfg) && e < |db.cat.events| && home >= 0 && away >= 0 && PendingIn(db, b, e, MarketTotals)
    ensures var r, code, total := SettleEvent(db, e, EventSettled, Decoded(home, away)), CodeOf(db, b), 100 * home + 100 * away;
      && r.Ok? && LineOf(db, b).Some?
      && Decided(db.bank, r.value.bank, b,
           if total == LineOf(db, b).value then ResultVoid
           else if (code == OutcomeOver && total > LineOf(db, b).value) || (code == OutcomeUnder && total < LineOf(db, b).value)
           then ResultWon else ResultLost)
  {
    hide Runs.Inv, Settle, SettleEvent, OutcomeVerdict, Decided;
    Runs.EveryTotalsBetHasALine(db, cfg, b);
    ScoreIsClose(db, e, home, away);
    CloseDecides(db, cfg, Close(e, EventSettled, ByScore(home, away), Decoded(home, away)), b, MarketTotals);
    TotalGoesTo(db.cat, db.bank.bets[b].outcomeId, home, away);
  }

  /** A final score refunds the bets of a custom market. */
  lemma ScoreRefundsCustomBet(db: Db, cfg: Config, e: nat, home: int, away: int, b: nat)
    requires Runs.Inv(db, cfg) && e < |db.cat.events| && home >= 0 && away >= 0 && PendingIn(db, b, e, MarketCustom)
    ensures var r := SettleEvent(db, e, EventSettled, Decoded(home, away)); r.Ok? && Decided(db.bank, r.value.bank, b, ResultVoid)
  {
    hide Runs.Inv, Settle, SettleEvent, OutcomeVerdict, Decided;
    ScoreIsClose(db, e, home, away);
    CloseDecides(db, cfg, Close(e, EventSettled, ByScore(home, away), Decoded(home, away)), b, MarketCustom);
    NobodyWins(db.cat, db.bank.bets[b].outcomeId, home, away);
  }

  /** A cancelled event refunds every pending bet on it. */
  lemma CancellationRefunds(db: Db, cfg: Config, e: nat, scores: Scores, b: nat, kind: MarketType)
    requires Runs.Inv(db, cfg) && e < |db.cat.events| && PendingIn(db, b, e, kind)
    ensures var r := SettleEvent(db, e, EventCancelled, scores); r.Ok? && Decided(db.bank, r.value.bank, b, ResultVoid)
  {
    assert SettleEvent(db, e, EventCancelled, scores) == Settle(db, e, EventCancelled, Cancellation, scores) by {
      hide ApplyPlan, PlanOf;
    }
    hide Runs.Inv, Settle, SettleEvent, OutcomeVerdict, Decided;
    CloseDecides(db, cfg, Close(e, EventCancelled, Cancellation, scores), b, kind);
    NobodyWins(db.cat, db.bank.bets[b].outcomeId, 0, 0);
  }

  /** The admin's winner is paid, the rest of its market loses, and bets of every other market of the event are refunded. */
  lemma WinnerDecidesBet(db: Db, cfg: Config, e: nat, winner: nat, b: nat, kind: MarketType)
    requires Runs.Inv(db, cfg) && e < |db.cat.events| && PendingIn(db, b, e, kind)
    ensures var r, o := SettleCustomEvent(db, e, winner), db.bank.bets[b].outcomeId;
      && r.Ok?
      && Decided(db.bank, r.value.bank, b,
           if o == winner then ResultWon
           else if winner < |db.cat.outcomes| && db.cat.outcomes[winner].marketId == db.cat.outcomes[o].marketId then ResultLost
           else ResultVoid)
      && o < |r.value.cat.outcomes|
      && r.value.cat.outcomes[o].result
         == Some(if o == winner then ResultWon
                 else if winner < |db.cat.outcomes| && db.cat.outcomes[winner].marketId == db.cat.outcomes[o].marketId then ResultLost
                 else ResultVoid)
  {
    assert SettleCustomEvent(db, e, winner) == Settle(db, e, EventSettled, ByWinner(winner), NoScores);
    hide Runs.Inv, Settle, SettleCustomEvent, OutcomeVerdict, Decided;
    CloseDecides(db, cfg, Close(e, EventSettled, ByWinner(winner), NoScores), b, kind);
    NamedWins(db.cat, winner, db.bank.bets[b].outcomeId);
  }

  // ---------- the rows of the event, and no others ----------

  /** Closing writes the event's status and score, its markets' statuses and its outcomes' results, and nothing else. */
  lemma CloseWrites(db: Db, cfg: Config, close: Close)
    requires Runs.Inv(db, cfg) && close.e < |db.cat.events|
    ensures Settle(db, close.e, close.final, close.d, close.scores).Ok?
    ensures var c, next := db.cat, Settle(db, close.e, close.final, close.d, close.scores).value.cat;
      && |next.events| == |c.events| && |next.markets| == |c.markets| && |next.outcomes| == |c.outcomes|
      && (forall i :: 0 <= i < |c.events| ==>
            next.events[i] == if i == close.e then c.events[i].(status := close.final, scores := close.scores) else c.events[i])
      && (forall m :: 0 <= m < |c.markets| ==>
            next.markets[m] == if c.markets[m].eventId == close.e then c.markets[m].(status := MarketVerdict(c, close.d, m)) else c.markets[m])
      && (forall o :: 0 <= o < |c.outcomes| && c.outcomes[o].marketId < |c.markets| ==>
            next.outcomes[o] == if c.markets[c.outcomes[o].marketId].eventId == close.e
                                then c.outcomes[o].(result := Some(OutcomeVerdict(c, close.d, o))) else c.outcomes[o])
  {
    Runs.CloseSettles(db, cfg, close);
    hide Runs.Inv, Settle, OutcomeVerdict, MarketVerdict;
  }

  /** A market ends settled when it was decided and void when it was not. */
  lemma MarketEnds(c: Catalogue, m: nat, home: int, away: int, winner: nat)
    requires m < |c.markets|
    ensures MarketVerdict(c, Cancellation, m) == MarketVoid
    ensures MarketVerdict(c, ByScore(home, away), m) == if c.markets[m].kind == MarketCustom then MarketVoid else MarketSettled
    ensures MarketVerdict(c, ByWinner(winner), m)
         == if winner < |c.outcomes| && c.outcomes[winner].marketId == m then MarketSettled else MarketVoid
  {
  }

  /** SettleEvent accepts a cancellation, or a final score of two non-negative numbers, for an event that exists. */
  lemma SettleEventExactlyWhen(db: Db, cfg: Config, e: nat, final: EventStatus, scores: Scores)
    requires Runs.Inv(db, cfg)
    ensures SettleEvent(db, e, final, scores).Ok?
       <==> e < |db.cat.events|
            && (final == EventCancelled
                || (final == EventSettled && scores.Decoded? && scores.home >= 0 && scores.away >= 0))
    ensures final != EventCancelled && final != EventSettled ==> SettleEvent(db, e, final, scores) == Err(ErrMarketClosed)
    ensures final == EventSettled && !(scores.Decoded? && scores.home >= 0 && scores.away >= 0) ==>
      SettleEvent(db, e, final, scores) == Err(ErrScoresUnavailable)
  {
    if final == EventCancelled || (final == EventSettled && ParseScores(scores).Some?) {
      var d := if final == EventCancelled then Cancellation else ByScore(scores.home, scores.away);
      assert SettleEvent(db, e, final, scores) == Settle(db, e, final, d, scores);
      if e < |db.cat.events| {
        hide Runs.Inv, Settle, SettleEvent;
        Runs.CloseSettles(db, cfg, Close(e, final, d, scores));
      } else {
        UnknownIsRefused(db, e, PlanOf(db.cat, e, final, d), scores);
      }
    }
  }

  lemma UnknownIsRefused(db: Db, e: nat, plan: Plan, scores: Scores)
    requires e >= |db.cat.events|
    ensures ApplyPlan(db, e, plan, scores).Err?
  {
    hide PlanFits, SettleBets;
  }
}
