/** The wallet contract: balances, ledger rows and bets agree at every moment. */
module Ledger {
  import opened Sums
  import opened Domain
  import opened BankOps

  function AmountOf(u: nat): LedgerRow -> int {
    (row: LedgerRow) => if row.userId == u then row.amount else 0
  }

  function AdjustmentOf(u: nat): LedgerRow -> int {
    (row: LedgerRow) => if row.userId == u && row.kind == TxAdminAdjust then row.amount else 0
  }

  /** Each row's balance_after is the sum of its user's amounts up to and including it, and never negative. */
  ghost predicate Chained(ledger: seq<LedgerRow>) {
    forall k :: 0 <= k < |ledger| ==> ChainedAt(ledger, k)
  }

  ghost predicate ChainedAt(ledger: seq<LedgerRow>, k: nat)
    requires k < |ledger|
  {
    0 <= ledger[k].balanceAfter == Total(ledger[..k + 1], AmountOf(ledger[k].userId))
  }

  ghost predicate Seen(ledger: seq<LedgerRow>, u: nat) {
    exists k :: 0 <= k < |ledger| && ledger[k].userId == u
  }

  /** A user's first row, and no other, is the signup bonus. */
  ghost predicate BonusFirst(ledger: seq<LedgerRow>, bonus: int) {
    forall k :: 0 <= k < |ledger| ==> BonusAt(ledger, k, bonus)
  }

  ghost predicate BonusAt(ledger: seq<LedgerRow>, k: nat, bonus: int)
    requires k < |ledger|
  {
    && (ledger[k].kind == TxSignupBonus <==> !Seen(ledger[..k], ledger[k].userId))
    && (ledger[k].kind == TxSignupBonus ==> ledger[k].amount == bonus && ledger[k].betId == None)
  }

  /** The ledger rows of one bet, in order: whose wallet, what kind, how much. */
  function RowsOf(ledger: seq<LedgerRow>, b: nat): seq<(nat, TxType, int)> {
    if |ledger| == 0 then []
    else
      var row := ledger[|ledger| - 1];
      RowsOf(ledger[..|ledger| - 1], b) + (if row.betId == Some(b) then [(row.userId, row.kind, row.amount)] else [])
  }

  /** What a decided bet has been paid: payout if won, stake if void, nothing if lost. */
  function CreditRows(bet: Bet, status: BetStatus): seq<(nat, TxType, int)> {
    match status
    case BetWon => [(bet.userId, TxBetPayout, bet.payout)]
    case BetVoid => [(bet.userId, TxBetRefund, bet.stake)]
    case _ => []
  }

  function RowsDue(bet: Bet): seq<(nat, TxType, int)> {
    [(bet.userId, TxBetStake, -bet.stake)] + CreditRows(bet, bet.status)
  }

  /** Every bet owns exactly the rows its status dictates; no row names a bet that does not exist. */
  ghost predicate Owned(bets: seq<Bet>, ledger: seq<LedgerRow>) {
    forall b: nat :: RowsOf(ledger, b) == DueOf(bets, b)
  }

  /** What one bet has done to its user's balance so far. */
  function NetOf(u: nat): Bet -> int {
    (b: Bet) =>
      if b.userId != u then 0
      else
        match b.status
        case BetPending => -b.stake
        case BetWon => b.payout - b.stake
        case BetLost => -b.stake
        case BetVoid => 0
  }

  ghost predicate Balanced(bank: Bank, bonus: int) {
    forall u :: u in bank.wallets ==>
      && bank.wallets[u] == Total(bank.ledger, AmountOf(u))
      && bank.wallets[u] == bonus + Total(bank.ledger, AdjustmentOf(u)) + Total(bank.bets, NetOf(u))
  }

  ghost predicate Populated(bank: Bank) {
    && (forall u: nat :: u in bank.wallets <==> u < |bank.users|)
    && (forall u: nat :: u in bank.wallets <==> Seen(bank.ledger, u))
    && (forall key :: key in bank.identities ==> bank.identities[key] < |bank.users|)
  }

  ghost predicate BankInv(bank: Bank, bonus: int) {
    && SoundBets(bank)
    && Populated(bank)
    && Chained(bank.ledger)
    && BonusFirst(bank.ledger, bonus)
    && Owned(bank.bets, bank.ledger)
    && Balanced(bank, bonus)
  }

  /** A placed bet keeps its user, outcome, stake, price and payout; once decided it keeps its status. */
  predicate FrozenBet(b: Bet, later: Bet) {
    later == b.(status := later.status) && (b.status != BetPending ==> later == b)
  }

  // ---------- one more ledger row ----------

  lemma ChainAppend(ledger: seq<LedgerRow>, row: LedgerRow)
    requires Chained(ledger)
    requires 0 <= row.balanceAfter == Total(ledger, AmountOf(row.userId)) + row.amount
    ensures Chained(ledger + [row])
  {
    var next := ledger + [row];
    TotalAppend(ledger, row, AmountOf(row.userId));
    assert next[..|next|] == next;
    forall k | 0 <= k < |next|
      ensures ChainedAt(next, k)
    {
      if k < |ledger| {
        assert ChainedAt(ledger, k) && next[..k + 1] == ledger[..k + 1];
      }
    }
  }

  lemma SeenAppend(ledger: seq<LedgerRow>, row: LedgerRow, u: nat)
    ensures Seen(ledger + [row], u) <==> Seen(ledger, u) || u == row.userId
  {
    var next := ledger + [row];
    if Seen(ledger, u) {
      var k :| 0 <= k < |ledger| && ledger[k].userId == u;
      assert next[k].userId == u;
    }
    assert next[|ledger|] == row;
  }

  lemma BonusAppend(ledger: seq<LedgerRow>, row: LedgerRow, bonus: int)
    requires BonusFirst(ledger, bonus)
    requires row.kind == TxSignupBonus <==> !Seen(ledger, row.userId)
    requires row.kind == TxSignupBonus ==> row.amount == bonus && row.betId == None
    ensures BonusFirst(ledger + [row], bonus)
  {
    var next := ledger + [row];
    forall k | 0 <= k < |next|
      ensures BonusAt(next, k, bonus)
    {
      assert next[..k] == ledger[..k];
      if k < |ledger| {
        assert BonusAt(ledger, k, bonus);
      } else {
        assert ledger[..|ledger|] == ledger;
      }
    }
  }

  function DueOf(bets: seq<Bet>, b: nat): seq<(nat, TxType, int)> {
    if b < |bets| then RowsDue(bets[b]) else []
  }

  function Naming(row: LedgerRow, b: nat): seq<(nat, TxType, int)> {
    if row.betId == Some(b) then [(row.userId, row.kind, row.amount)] else []
  }

  lemma OwnedAppend(bets: seq<Bet>, ledger: seq<LedgerRow>, bets': seq<Bet>, row: LedgerRow)
    requires Owned(bets, ledger)
    requires forall b: nat :: DueOf(bets', b) == DueOf(bets, b) + Naming(row, b)
    ensures Owned(bets', ledger + [row])
  {
    forall b: nat ensures RowsOf(ledger + [row], b) == DueOf(bets', b) {
      assert (ledger + [row])[..|ledger|] == ledger;
      assert RowsOf(ledger, b) == DueOf(bets, b);
    }
  }

  /** The ledger rows an operation may append: the wallet is the sum so far and the row continues it. */
  ghost predicate Posted(bank: Bank, next: Bank, row: LedgerRow) {
    && next.ledger == bank.ledger + [row]
    && next.wallets == bank.wallets[row.userId := row.balanceAfter]
    && row.balanceAfter == (if row.userId in bank.wallets then bank.wallets[row.userId] else 0) + row.amount
    && row.balanceAfter >= 0
  }

  lemma BalanceAppend(bank: Bank, next: Bank, row: LedgerRow, bonus: int)
    requires Balanced(bank, bonus) && Posted(bank, next, row)
    requires row.userId !in bank.wallets ==>
      Total(bank.ledger, AmountOf(row.userId)) == 0 && Total(bank.ledger, AdjustmentOf(row.userId)) == 0
    requires forall u :: u in next.wallets ==>
      (if u == row.userId then row.amount else 0)
      == AdjustmentOf(u)(row) + Total(next.bets, NetOf(u))
         - (if u in bank.wallets then Total(bank.bets, NetOf(u)) else -bonus)
    ensures Balanced(next, bonus)
  {
    forall u | u in next.wallets
      ensures next.wallets[u] == Total(next.ledger, AmountOf(u))
      ensures next.wallets[u] == bonus + Total(next.ledger, AdjustmentOf(u)) + Total(next.bets, NetOf(u))
    {
      TotalAppend(bank.ledger, row, AmountOf(u));
      TotalAppend(bank.ledger, row, AdjustmentOf(u));
    }
  }

  /** Appending one row keeps the whole contract when the bets and the bookkeeping follow it. */
  lemma AppendKeepsBankInv(bank: Bank, next: Bank, row: LedgerRow, bonus: int)
    requires BankInv(bank, bonus) && Posted(bank, next, row)
    requires SoundBets(next)
    requires forall u: nat :: u in next.wallets <==> u < |next.users|
    requires forall key :: key in next.identities ==> next.identities[key] < |next.users|
    requires row.kind == TxSignupBonus <==> row.userId !in bank.wallets
    requires row.kind == TxSignupBonus ==> row.amount == bonus && row.betId == None
    requires forall b: nat :: DueOf(next.bets, b) == DueOf(bank.bets, b) + Naming(row, b)
    requires forall u :: u in next.wallets ==>
      (if u == row.userId then row.amount else 0)
      == AdjustmentOf(u)(row) + Total(next.bets, NetOf(u))
         - (if u in bank.wallets then Total(bank.bets, NetOf(u)) else -bonus)
    ensures BankInv(next, bonus)
  {
    var u := row.userId;
    if !Seen(bank.ledger, u) {
      NoRowsNoTotal(bank.ledger, u);
    }
    ChainAppend(bank.ledger, row);
    BonusAppend(bank.ledger, row, bonus);
    OwnedAppend(bank.bets, bank.ledger, next.bets, row);
    BalanceAppend(bank, next, row, bonus);
    forall v: nat ensures v in next.wallets <==> Seen(next.ledger, v) {
      SeenAppend(bank.ledger, row, v);
    }
  }

  lemma NoRowsNoTotal(ledger: seq<LedgerRow>, u: nat)
    requires !Seen(ledger, u)
    ensures Total(ledger, AmountOf(u)) == 0 && Total(ledger, AdjustmentOf(u)) == 0
  {
    TotalZero(ledger, AmountOf(u));
    TotalZero(ledger, AdjustmentOf(u));
  }

  // ---------- every operation keeps the contract ----------

  lemma EnrollEffect(bank: Bank, email: Option<string>, bonus: int)
    requires Enroll(bank, email, bonus).Ok?
    ensures var u := |bank.users|;
      && u !in bank.wallets && bonus >= 0
      && Enroll(bank, email, bonus).value
         == bank.(users := bank.users + [User(email)], wallets := bank.wallets[u := bonus],
                  ledger := bank.ledger + [LedgerRow(u, bonus, TxSignupBonus, None, bonus)])
  {
    assert bank.wallets[|bank.users| := 0][|bank.users| := bonus] == bank.wallets[|bank.users| := bonus];
  }

  /** Registration: the new user's ledger starts with the one signup bonus. */
  lemma EnrollKeepsBankInv(bank: Bank, email: Option<string>, bonus: int)
    requires BankInv(bank, bonus) && Enroll(bank, email, bonus).Ok?
    ensures BankInv(Enroll(bank, email, bonus).value, bonus)
  {
    hide Chained, Owned, BonusFirst, Balanced, Enroll;
    EnrollEffect(bank, email, bonus);
    TotalZero(bank.bets, NetOf(|bank.users|));
    AppendKeepsBankInv(bank, Enroll(bank, email, bonus).value,
                       LedgerRow(|bank.users|, bonus, TxSignupBonus, None, bonus), bonus);
  }

  lemma AdjustKeepsBankInv(bank: Bank, u: nat, amount: int, bonus: int)
    requires BankInv(bank, bonus) && AdjustBalance(bank, u, amount).Ok?
    ensures BankInv(AdjustBalance(bank, u, amount).value, bonus)
  {
    var next := AdjustBalance(bank, u, amount).value;
    AppendKeepsBankInv(bank, next, LedgerRow(u, amount, TxAdminAdjust, None, next.wallets[u]), bonus);
  }

  lemma StakeKeepsBankInv(bank: Bank, bet: Bet, bonus: int)
    requires BankInv(bank, bonus) && bet.status == BetPending && SoundBet(bet) && StakeBet(bank, bet).Ok?
    ensures BankInv(StakeBet(bank, bet).value, bonus)
  {
    hide Chained, Owned, BonusFirst, Balanced;
    var next := StakeBet(bank, bet).value;
    forall u ensures Total(next.bets, NetOf(u)) == Total(bank.bets, NetOf(u)) + NetOf(u)(bet) {
      TotalAppend(bank.bets, bet, NetOf(u));
    }
    var row := LedgerRow(bet.userId, -bet.stake, TxBetStake, Some(|bank.bets|), next.wallets[bet.userId]);
    AppendKeepsBankInv(bank, next, row, bonus);
  }

  lemma NetOfDecided(bets: seq<Bet>, b: nat, decided: Bet, u: nat)
    requires b < |bets|
    ensures Total(bets[b := decided], NetOf(u)) == Total(bets, NetOf(u)) - NetOf(u)(bets[b]) + NetOf(u)(decided)
  {
    TotalUpdate(bets, b, decided, NetOf(u));
  }

  function CreditRow(bet: Bet, b: nat, won: bool, after: int): LedgerRow {
    LedgerRow(bet.userId, if won then bet.payout else bet.stake, if won then TxBetPayout else TxBetRefund, Some(b), after)
  }

  lemma CreditIsDue(bets: seq<Bet>, b: nat, won: bool, after: int)
    requires b < |bets| && bets[b].status == BetPending
    ensures var next := bets[b := bets[b].(status := if won then BetWon else BetVoid)];
      forall c: nat :: DueOf(next, c) == DueOf(bets, c) + Naming(CreditRow(bets[b], b, won, after), c)
  {
  }

  /** The credit is exactly what the decision adds to its user's net. */
  lemma CreditIsNet(bets: seq<Bet>, b: nat, won: bool, after: int, u: nat)
    requires b < |bets| && bets[b].status == BetPending
    ensures var row := CreditRow(bets[b], b, won, after);
      var next := bets[b := bets[b].(status := if won then BetWon else BetVoid)];
      (if u == row.userId then row.amount else 0)
      == AdjustmentOf(u)(row) + Total(next, NetOf(u)) - Total(bets, NetOf(u))
  {
    NetOfDecided(bets, b, bets[b].(status := if won then BetWon else BetVoid), u);
  }

  /** A won or void bet: one credit row, and the bet's net follows it. */
  lemma CreditKeepsBankInv(bank: Bank, next: Bank, b: nat, won: bool, after: int, bonus: int)
    requires BankInv(bank, bonus) && b < |bank.bets| && bank.bets[b].status == BetPending
    requires next.users == bank.users && next.identities == bank.identities && SoundBets(next)
    requires next.bets == bank.bets[b := bank.bets[b].(status := if won then BetWon else BetVoid)]
    requires Posted(bank, next, CreditRow(bank.bets[b], b, won, after))
    ensures BankInv(next, bonus)
  {
    hide Chained, Owned, BonusFirst, Balanced, DueOf, Naming, SoundBet, NetOf, AdjustmentOf, Total;
    CreditIsDue(bank.bets, b, won, after);
    var row := CreditRow(bank.bets[b], b, won, after);
    forall u: nat ensures (if u == row.userId then row.amount else 0)
                  == AdjustmentOf(u)(row) + Total(next.bets, NetOf(u)) - Total(bank.bets, NetOf(u)) {
      CreditIsNet(bank.bets, b, won, after, u);
    }
    AppendKeepsBankInv(bank, next, row, bonus);
  }

  /** A lost bet: no money moves, the stake becomes the user's loss. */
  lemma LossKeepsBankInv(bank: Bank, b: nat, bonus: int)
    requires BankInv(bank, bonus) && b < |bank.bets| && bank.bets[b].status == BetPending
    ensures BankInv(bank.(bets := bank.bets[b := bank.bets[b].(status := BetLost)]), bonus)
  {
    hide Chained, BonusFirst, Owned, Balanced;
    LossStaysOwned(bank.bets, bank.ledger, b);
    LossStaysBalanced(bank, b, bonus);
  }

  lemma LossStaysOwned(bets: seq<Bet>, ledger: seq<LedgerRow>, b: nat)
    requires Owned(bets, ledger) && b < |bets| && bets[b].status == BetPending
    ensures Owned(bets[b := bets[b].(status := BetLost)], ledger)
  {
    var next := bets[b := bets[b].(status := BetLost)];
    forall c: nat ensures RowsOf(ledger, c) == DueOf(next, c) {
      assert RowsOf(ledger, c) == DueOf(bets, c);
    }
  }

  lemma LossStaysBalanced(bank: Bank, b: nat, bonus: int)
    requires Balanced(bank, bonus) && b < |bank.bets| && bank.bets[b].status == BetPending
    ensures Balanced(bank.(bets := bank.bets[b := bank.bets[b].(status := BetLost)]), bonus)
  {
    var lost := bank.bets[b].(status := BetLost);
    forall u | u in bank.wallets ensures Total(bank.bets[b := lost], NetOf(u)) == Total(bank.bets, NetOf(u)) {
      NetOfDecided(bank.bets, b, lost, u);
    }
  }

  lemma SettleBetKeepsBankInv(bank: Bank, results: map<nat, Result>, b: nat, bonus: int)
    requires BankInv(bank, bonus) && b < |bank.bets| && bank.bets[b].status == BetPending
    ensures SettleBet(bank, results, b).Ok? && BankInv(SettleBet(bank, results, b).value, bonus)
  {
    hide Chained, Owned, BonusFirst, Balanced;
    SettleBetConserves(bank, results, b);
    var bet := bank.bets[b];
    if bet.outcomeId in results {
      if results[bet.outcomeId] == ResultLost {
        LossKeepsBankInv(bank, b, bonus);
      } else {
        var next := SettleBet(bank, results, b).value;
        CreditKeepsBankInv(bank, next, b, results[bet.outcomeId] == ResultWon, next.wallets[bet.userId], bonus);
      }
    }
  }

  lemma {:induction false} SettleBetsKeepBankInv(bank: Bank, results: map<nat, Result>, ids: seq<nat>, bonus: int)
    requires BankInv(bank, bonus)
    requires forall i :: 0 <= i < |ids| ==> ids[i] < |bank.bets| && bank.bets[ids[i]].status == BetPending
    requires forall i, j :: 0 <= i < j < |ids| ==> ids[i] != ids[j]
    ensures SettleBets(bank, results, ids).Ok? && BankInv(SettleBets(bank, results, ids).value, bonus)
  {
    if |ids| > 0 {
      var front, last := ids[..|ids| - 1], ids[|ids| - 1];
      SettleBetsKeepBankInv(bank, results, front, bonus);
      SettleBetsConserve(bank, results, front);
      assert last !in front;
      SettleBetKeepsBankInv(SettleBets(bank, results, front).value, results, last, bonus);
    }
  }

  // ---------- reading the contract ----------

  /** The wallet shows the balance_after of the user's last row. */
  lemma LastRowIsBalance(bank: Bank, bonus: int, u: nat, k: nat)
    requires BankInv(bank, bonus) && u in bank.wallets
    requires k < |bank.ledger| && bank.ledger[k].userId == u
    requires forall j :: k < j < |bank.ledger| ==> bank.ledger[j].userId != u
    ensures bank.ledger[k].balanceAfter == bank.wallets[u]
  {
    assert ChainedAt(bank.ledger, k);
    var front, rest := bank.ledger[..k + 1], bank.ledger[k + 1..];
    assert bank.ledger == front + rest;
    TotalConcat(front, rest, AmountOf(u));
    TotalZero(rest, AmountOf(u));
  }

  /** Each user has exactly one signup bonus, it is the user's first row, and it is the configured amount. */
  lemma OneSignupBonus(bank: Bank, bonus: int, u: nat) returns (k: nat)
    requires BankInv(bank, bonus) && u in bank.wallets
    ensures k < |bank.ledger| && bank.ledger[k] == LedgerRow(u, bonus, TxSignupBonus, None, bonus)
    ensures forall j :: 0 <= j < k ==> bank.ledger[j].userId != u
    ensures forall j :: 0 <= j < |bank.ledger| && bank.ledger[j].userId == u && bank.ledger[j].kind == TxSignupBonus ==> j == k
  {
    assert Seen(bank.ledger, u);
    hide BankInv, Seen;
    k := FirstRow(bank.ledger, u);
    FirstRowIsBonus(bank, bonus, u, k);
  }

  lemma FirstRow(ledger: seq<LedgerRow>, u: nat) returns (k: nat)
    requires Seen(ledger, u)
    ensures k < |ledger| && ledger[k].userId == u && forall j :: 0 <= j < k ==> ledger[j].userId != u
  {
    hide Where;
    var own := Where(ledger, RowOfUser(u));
    forall j | 0 <= j < |ledger| && ledger[j].userId == u ensures j in own {
      assert RowOfUser(u)(ledger[j]);
    }
    k := own[0];
  }

  function RowOfUser(u: nat): LedgerRow -> bool { (row: LedgerRow) => row.userId == u }

  lemma FirstRowIsBonus(bank: Bank, bonus: int, u: nat, k: nat)
    requires BankInv(bank, bonus) && k < |bank.ledger| && bank.ledger[k].userId == u
    requires forall j :: 0 <= j < k ==> bank.ledger[j].userId != u
    ensures bank.ledger[k] == LedgerRow(u, bonus, TxSignupBonus, None, bonus)
    ensures forall j :: 0 <= j < |bank.ledger| && bank.ledger[j].userId == u && bank.ledger[j].kind == TxSignupBonus ==> j == k
  {
    assert BonusAt(bank.ledger, k, bonus) && ChainedAt(bank.ledger, k);
    hide Owned, Balanced, SoundBets, Populated;
    assert !Seen(bank.ledger[..k], u);
    assert bank.ledger[..k + 1] == bank.ledger[..k] + [bank.ledger[k]];
    TotalAppend(bank.ledger[..k], bank.ledger[k], AmountOf(u));
    NoRowsNoTotal(bank.ledger[..k], u);
    forall j | k < j < |bank.ledger| && bank.ledger[j].userId == u
      ensures bank.ledger[j].kind != TxSignupBonus
    {
      assert bank.ledger[..j][k].userId == u;
      assert BonusAt(bank.ledger, j, bonus);
    }
  }
}
