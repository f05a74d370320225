/** Three ways the repository counts the same bets: profile aggregate, leaderboard, browser. */
module Stats {
  import opened Sums
  import opened Domain
  import opened Payout
  import opened BankOps
  import opened Ledger

  // ---------- GetUserStats: one aggregate over the user's bets ----------

  datatype UserStats = UserStats(total: int, won: int, lost: int, voided: int, pending: int, staked: int, profit: int)

  function CountOf(u: nat, statuses: set<BetStatus>): Bet -> int {
    (b: Bet) => if b.userId == u && b.status in statuses then 1 else 0
  }

  function StakeOf(u: nat, statuses: set<BetStatus>): Bet -> int {
    (b: Bet) => if b.userId == u && b.status in statuses then b.stake else 0
  }

  function WinningsOf(u: nat): Bet -> int {
    (b: Bet) => if b.userId == u && b.status == BetWon then b.payout else 0
  }

  function GetUserStats(bets: seq<Bet>, u: nat): UserStats {
    UserStats(Total(bets, CountOf(u, {BetPending, BetWon, BetLost, BetVoid})),
              Total(bets, CountOf(u, {BetWon})), Total(bets, CountOf(u, {BetLost})),
              Total(bets, CountOf(u, {BetVoid})), Total(bets, CountOf(u, {BetPending})),
              Total(bets, StakeOf(u, {BetWon, BetLost})),
              Total(bets, WinningsOf(u)) - Total(bets, StakeOf(u, {BetWon, BetLost})))
  }

  /** A user without bets has no numbers. */
  lemma NoBetsNoStats(u: nat)
    ensures GetUserStats([], u) == UserStats(0, 0, 0, 0, 0, 0, 0)
  {
  }

  /** What one more bet adds to a profile: it counts once, and only won and lost stakes and results count as money. */
  lemma StatsGrow(bets: seq<Bet>, bet: Bet, u: nat)
    ensures var before, after := GetUserStats(bets, u), GetUserStats(bets + [bet], u);
      after == if bet.userId != u then before
               else
                 match bet.status
                 case BetPending => before.(total := before.total + 1, pending := before.pending + 1)
                 case BetVoid => before.(total := before.total + 1, voided := before.voided + 1)
                 case BetWon => before.(total := before.total + 1, won := before.won + 1,
                                        staked := before.staked + bet.stake, profit := before.profit + bet.payout - bet.stake)
                 case BetLost => before.(total := before.total + 1, lost := before.lost + 1,
                                         staked := before.staked + bet.stake, profit := before.profit - bet.stake)
  {
    hide Total;
    TotalAppend(bets, bet, CountOf(u, {BetPending, BetWon, BetLost, BetVoid}));
    TotalAppend(bets, bet, CountOf(u, {BetWon}));
    TotalAppend(bets, bet, CountOf(u, {BetLost}));
    TotalAppend(bets, bet, CountOf(u, {BetVoid}));
    TotalAppend(bets, bet, CountOf(u, {BetPending}));
    TotalAppend(bets, bet, StakeOf(u, {BetWon, BetLost}));
    TotalAppend(bets, bet, WinningsOf(u));
  }

  lemma {:induction false} NetIsProfitMinusPending(bets: seq<Bet>, u: nat)
    ensures Total(bets, NetOf(u))
         == GetUserStats(bets, u).profit - Total(bets, StakeOf(u, {BetPending}))
  {
    if |bets| > 0 {
      NetIsProfitMinusPending(bets[..|bets| - 1], u);
    }
  }

  /** A balance is the bonus, the admin adjustments and the profile's profit, minus stakes still pending. */
  lemma BalanceIsProfit(bank: Bank, bonus: int, u: nat)
    requires BankInv(bank, bonus) && u in bank.wallets
    ensures bank.wallets[u]
         == bonus + Total(bank.ledger, AdjustmentOf(u)) + GetUserStats(bank.bets, u).profit
            - Total(bank.bets, StakeOf(u, {BetPending}))
  {
    hide Chained, Owned, BonusFirst, SoundBets, Populated;
    NetIsProfitMinusPending(bank.bets, u);
  }

  // ---------- GetLeaderboard, all time: WHERE won or lost, GROUP BY user ----------

  datatype Row = Row(userId: nat, total: int, won: int, staked: int, profit: int)

  function DecidedBy(u: nat): Bet -> bool {
    (b: Bet) => b.userId == u && (b.status == BetWon || b.status == BetLost)
  }

  function One(): Bet -> int { (b: Bet) => 1 }

  function OneIfWon(): Bet -> int { (b: Bet) => if b.status == BetWon then 1 else 0 }

  function Stake(): Bet -> int { (b: Bet) => b.stake }

  function Winnings(): Bet -> int { (b: Bet) => if b.status == BetWon then b.payout else 0 }

  /** The aggregate row of one group. */
  function RowOf(bets: seq<Bet>, u: nat): Row {
    var group := Select(bets, DecidedBy(u));
    Row(u, Total(group, One()), Total(group, OneIfWon()), Total(group, Stake()),
        Total(group, Winnings()) - Total(group, Stake()))
  }

  /** An all-time leaderboard row shows what the profile shows. */
  lemma {:induction false} RowAgreesWithStats(bets: seq<Bet>, u: nat)
    ensures var row, stats := RowOf(bets, u), GetUserStats(bets, u);
      && row.total == stats.won + stats.lost && row.won == stats.won
      && row.staked == stats.staked && row.profit == stats.profit
  {
    if |bets| > 0 {
      var front, last := bets[..|bets| - 1], bets[|bets| - 1];
      RowAgreesWithStats(front, u);
      if DecidedBy(u)(last) {
        var group := Select(front, DecidedBy(u));
        TotalAppend(group, last, One());
        TotalAppend(group, last, OneIfWon());
        TotalAppend(group, last, Stake());
        TotalAppend(group, last, Winnings());
      } else {
        assert Select(bets, DecidedBy(u)) == Select(front, DecidedBy(u));
      }
    }
  }

  // ---------- computeStats in the browser ----------

  function Settled(): Bet -> bool { (b: Bet) => b.status == BetWon || b.status == BetLost }

  /** reduce((acc, b) => acc + (won ? payout - stake : -stake), 0). */
  function ReduceProfit(bets: seq<Bet>, acc: int): int {
    if |bets| == 0 then acc
    else ReduceProfit(bets[1..], acc + if bets[0].status == BetWon then bets[0].payout - bets[0].stake else -bets[0].stake)
  }

  function BrowserProfit(bets: seq<Bet>): int {
    ReduceProfit(Select(bets, Settled()), 0)
  }

  lemma {:induction false} ReduceAppend(bets: seq<Bet>, last: Bet, acc: int)
    ensures ReduceProfit(bets + [last], acc)
         == ReduceProfit(bets, acc) + if last.status == BetWon then last.payout - last.stake else -last.stake
    decreases |bets|
  {
    if |bets| > 0 {
      assert (bets + [last])[1..] == bets[1..] + [last];
      ReduceAppend(bets[1..], last, acc + if bets[0].status == BetWon then bets[0].payout - bets[0].stake else -bets[0].stake);
    } else {
      assert (bets + [last])[1..] == [];
    }
  }

  function ByUser(u: nat): Bet -> bool { (b: Bet) => b.userId == u }

  /** What one more bet adds to the browser's profit of a user. */
  lemma BrowserAppend(bets: seq<Bet>, last: Bet, u: nat)
    ensures BrowserProfit(Select(bets + [last], ByUser(u)))
         == BrowserProfit(Select(bets, ByUser(u)))
            + if last.userId != u || !Settled()(last) then 0 else if last.status == BetWon then last.payout - last.stake else -last.stake
  {
    hide Select, ReduceProfit;
    var mine := Select(bets, ByUser(u));
    SelectAppend(bets, last, ByUser(u));
    SelectAppend(mine, last, Settled());
    ReduceAppend(Select(mine, Settled()), last, 0);
    assert mine + [] == mine && Select(mine, Settled()) + [] == Select(mine, Settled());
  }

  lemma NothingBrowsed(u: nat)
    ensures BrowserProfit(Select([], ByUser(u))) == 0 && GetUserStats([], u).profit == 0
  {
  }

  /** The browser's fold over a user's bets gives the server's profit. */
  lemma {:induction false} BrowserAgreesWithStats(bets: seq<Bet>, u: nat)
    ensures BrowserProfit(Select(bets, ByUser(u))) == GetUserStats(bets, u).profit
  {
    hide BrowserProfit, Select, Total;
    if |bets| == 0 {
      NothingBrowsed(u);
      assert bets == [];
    } else {
      var front, last := bets[..|bets| - 1], bets[|bets| - 1];
      assert bets == front + [last];
      BrowserAgreesWithStats(front, u);
      BrowserAppend(front, last, u);
      TotalAppend(front, last, WinningsOf(u));
      TotalAppend(front, last, StakeOf(u, {BetWon, BetLost}));
    }
  }

  // ---------- the ROI page ----------

  /** ORDER BY roi DESC NULLS LAST, id: SUM(...) FILTER (won) is NULL for a user without wins. */
  predicate SqlBefore(a: Row, b: Row) {
    if a.won == 0 || b.won == 0 then
      (a.won > 0 && b.won == 0) || (a.won == 0 && b.won == 0 && a.userId < b.userId)
    else RoiBefore(a, b)
  }

  /** Descending exact profit/staked, ties by id. */
  predicate RoiBefore(a: Row, b: Row) {
    a.profit * b.staked > b.profit * a.staked || (a.profit * b.staked == b.profit * a.staked && a.userId < b.userId)
  }

  /** HAVING COUNT(*) >= minBets over a non-empty group. */
  predicate Qualifies(bets: seq<Bet>, u: nat, minBets: int) {
    RowOf(bets, u).total > 0 && RowOf(bets, u).total >= minBets
  }

  /** The whole ROI leaderboard: one row per qualifying user, in SQL order. */
  ghost predicate IsLeaderboard(rows: seq<Row>, bets: seq<Bet>, minBets: int) {
    && (forall i :: 0 <= i < |rows| ==> rows[i] == RowOf(bets, rows[i].userId) && Qualifies(bets, rows[i].userId, minBets))
    && (forall u: nat :: Qualifies(bets, u, minBets) ==> exists i :: 0 <= i < |rows| && rows[i].userId == u)
    && (forall i, j :: 0 <= i < j < |rows| ==> SqlBefore(rows[i], rows[j]))
  }

  /** Without wins the ROI is exactly -1; with a win it is strictly above. */
  lemma {:induction false} RowBounds(group: seq<Bet>)
    requires forall b :: 0 <= b < |group| ==> SoundBet(group[b])
    ensures 0 <= Total(group, OneIfWon()) <= Total(group, One()) == |group| <= Total(group, Stake())
    ensures Total(group, OneIfWon()) == 0 ==> Total(group, Winnings()) == 0
    ensures Total(group, OneIfWon()) > 0 ==> Total(group, Winnings()) > 0
    ensures Total(group, Winnings()) >= 0
  {
    if |group| > 0 {
      RowBounds(group[..|group| - 1]);
      PayoutIsFloor(group[|group| - 1].stake, group[|group| - 1].odds);
    }
  }

  lemma {:induction false} SelectedAreSound(bets: seq<Bet>, p: Bet -> bool)
    requires forall b :: 0 <= b < |bets| ==> SoundBet(bets[b])
    ensures forall b :: 0 <= b < |Select(bets, p)| ==> SoundBet(Select(bets, p)[b])
  {
    hide SoundBet;
    if |bets| > 0 {
      SelectedAreSound(bets[..|bets| - 1], p);
    }
  }

  lemma CrossMultiply(a: Row, b: Row)
    requires a.staked > 0 && b.staked > 0 && a.profit > -a.staked && b.profit == -b.staked
    ensures a.profit * b.staked > b.profit * a.staked
  {
    assert (a.profit + a.staked) * b.staked > 0;
  }

  /** What is true of every row that can appear on the leaderboard. */
  predicate SoundRow(r: Row) {
    r.staked > 0 && r.won >= 0 && if r.won == 0 then r.profit == -r.staked else r.profit > -r.staked
  }

  lemma QualifiedRowIsSound(bets: seq<Bet>, minBets: int, u: nat)
    requires forall b :: 0 <= b < |bets| ==> SoundBet(bets[b])
    requires Qualifies(bets, u, minBets)
    ensures SoundRow(RowOf(bets, u))
  {
    SelectedAreSound(bets, DecidedBy(u));
    hide SoundBet;
    RowBounds(Select(bets, DecidedBy(u)));
  }

  lemma SoundRowsCompare(a: Row, b: Row)
    requires SoundRow(a) && SoundRow(b)
    ensures SqlBefore(a, b) <==> RoiBefore(a, b)
  {
    if a.won > 0 && b.won == 0 {
      CrossMultiply(a, b);
    } else if a.won == 0 && b.won > 0 {
      CrossMultiply(b, a);
    } else if a.won == 0 && b.won == 0 {
      assert a.profit * b.staked == -(a.staked * b.staked) == b.profit * a.staked;
    }
  }

  /** NULLS LAST puts two rows in exactly the order of their exact ROI. */
  lemma NullsLastIsRoiOrder(bets: seq<Bet>, minBets: int, u: nat, v: nat)
    requires forall b :: 0 <= b < |bets| ==> SoundBet(bets[b])
    requires Qualifies(bets, u, minBets) && Qualifies(bets, v, minBets)
    ensures SqlBefore(RowOf(bets, u), RowOf(bets, v)) <==> RoiBefore(RowOf(bets, u), RowOf(bets, v))
  {
    QualifiedRowIsSound(bets, minBets, u);
    QualifiedRowIsSound(bets, minBets, v);
    SoundRowsCompare(RowOf(bets, u), RowOf(bets, v));
  }

  /** Every row of the ROI leaderboard equals the profile's numbers and the list descends by exact ROI. */
  lemma LeaderboardDescends(rows: seq<Row>, bets: seq<Bet>, minBets: int, i: nat, j: nat)
    requires forall b :: 0 <= b < |bets| ==> SoundBet(bets[b])
    requires IsLeaderboard(rows, bets, minBets) && i < j < |rows|
    ensures rows[i].profit * rows[j].staked > rows[j].profit * rows[i].staked
      || (rows[i].profit * rows[j].staked == rows[j].profit * rows[i].staked && rows[i].userId < rows[j].userId)
    ensures var stats := GetUserStats(bets, rows[i].userId);
      rows[i] == Row(rows[i].userId, stats.won + stats.lost, stats.won, stats.staked, stats.profit)
  {
    NullsLastIsRoiOrder(bets, minBets, rows[i].userId, rows[j].userId);
    RowAgreesWithStats(bets, rows[i].userId);
  }

  /** A user is on the leaderboard exactly with a won or lost bet and no fewer of them than asked for. */
  lemma ListedExactlyWhen(rows: seq<Row>, bets: seq<Bet>, minBets: int, u: nat)
    requires IsLeaderboard(rows, bets, minBets)
    ensures (exists i :: 0 <= i < |rows| && rows[i].userId == u)
       <==> (var stats := GetUserStats(bets, u); stats.won + stats.lost > 0 && stats.won + stats.lost >= minBets)
  {
    RowAgreesWithStats(bets, u);
    hide GetUserStats, SqlBefore;
    var stats := GetUserStats(bets, u);
    assert Qualifies(bets, u, minBets) <==> stats.won + stats.lost > 0 && stats.won + stats.lost >= minBets;
    hide Qualifies, RowOf;
    if i :| 0 <= i < |rows| && rows[i].userId == u {
      assert Qualifies(bets, rows[i].userId, minBets);
    }
  }
}
