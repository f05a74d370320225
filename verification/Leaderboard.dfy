/** The ROI leaderboard exists and is unique: the SQL order is a strict total order on its rows. */
module Leaderboard {
  import opened Sums
  import opened Domain
  import opened BankOps
  import opened Stats

  // ---------- the order ----------

  lemma ProductsCompare(x: int, y: int, k: int)
    requires k > 0
    ensures x * k > y * k ==> x > y
    ensures x * k == y * k ==> x == y
  {
    if x <= y {
      assert (y - x) * k >= 0;
    }
    if x < y {
      assert (y - x) * k > 0;
    } else if x > y {
      assert (x - y) * k > 0;
    }
  }

  lemma Scales(x: int, y: int, k: int)
    requires k > 0
    ensures x > y ==> x * k > y * k
  {
    if x > y {
      assert (x - y) * k > 0;
    }
  }

  lemma RoiTransitive(a: Row, b: Row, c: Row)
    requires a.staked > 0 && b.staked > 0 && c.staked > 0 && RoiBefore(a, b) && RoiBefore(b, c)
    ensures RoiBefore(a, c)
  {
    var ab, ba := a.profit * b.staked, b.profit * a.staked;
    var bc, cb := b.profit * c.staked, c.profit * b.staked;
    Scales(ab, ba, c.staked);
    Scales(bc, cb, a.staked);
    assert ba * c.staked == bc * a.staked;
    assert ab * c.staked == a.profit * c.staked * b.staked;
    assert cb * a.staked == c.profit * a.staked * b.staked;
    ProductsCompare(a.profit * c.staked, c.profit * a.staked, b.staked);
  }

  lemma SqlTransitive(a: Row, b: Row, c: Row)
    requires SoundRow(a) && SoundRow(b) && SoundRow(c) && SqlBefore(a, b) && SqlBefore(b, c)
    ensures SqlBefore(a, c)
  {
    SoundRowsCompare(a, b);
    SoundRowsCompare(b, c);
    SoundRowsCompare(a, c);
    RoiTransitive(a, b, c);
  }

  // ---------- existence ----------

  ghost predicate Descends(rows: seq<Row>) {
    && (forall i :: 0 <= i < |rows| ==> SoundRow(rows[i]))
    && (forall i, j :: 0 <= i < j < |rows| ==> SqlBefore(rows[i], rows[j]))
  }

  function Insert(rows: seq<Row>, row: Row): seq<Row> {
    if |rows| == 0 then [row]
    else if SqlBefore(row, rows[0]) then [row] + rows
    else [rows[0]] + Insert(rows[1..], row)
  }

  lemma {:induction false} InsertKeeps(rows: seq<Row>, row: Row)
    requires Descends(rows) && SoundRow(row) && forall i :: 0 <= i < |rows| ==> rows[i].userId != row.userId
    ensures Descends(Insert(rows, row))
    ensures forall r :: r in Insert(rows, row) <==> r in rows || r == row
  {
    hide SqlBefore, SoundRow;
    if |rows| > 0 {
      var head, tail := rows[0], rows[1..];
      OneFirst(row, head);
      if SqlBefore(row, head) {
        forall j | 0 < j < |rows| ensures SqlBefore(row, rows[j]) {
          SqlTransitive(row, head, rows[j]);
        }
      } else {
        InsertKeeps(tail, row);
        var rest := Insert(tail, row);
        forall j | 0 <= j < |rest| ensures SqlBefore(head, rest[j]) {
          assert rest[j] in rest;
          if rest[j] != row {
            var k :| 0 <= k < |tail| && tail[k] == rest[j];
            assert tail[k] == rows[k + 1];
          }
        }
        assert rows == [head] + tail;
      }
    }
  }

  /** Of two users' rows exactly one comes first. */
  lemma OneFirst(a: Row, b: Row)
    requires SoundRow(a) && SoundRow(b) && a.userId != b.userId
    ensures SqlBefore(a, b) <==> !SqlBefore(b, a)
  {
  }

  ghost predicate BoardBelow(rows: seq<Row>, bets: seq<Bet>, minBets: int, n: nat) {
    && Descends(rows)
    && forall r :: r in rows <==> r.userId < n && Qualifies(bets, r.userId, minBets) && r == RowOf(bets, r.userId)
  }

  lemma {:induction false} BoardExists(bets: seq<Bet>, minBets: int, n: nat) returns (rows: seq<Row>)
    requires forall b :: 0 <= b < |bets| ==> SoundBet(bets[b])
    ensures BoardBelow(rows, bets, minBets, n)
  {
    if n == 0 {
      return [];
    }
    var u := n - 1;
    var before := BoardExists(bets, minBets, u);
    hide RowOf, Qualifies, SoundBet;
    if Qualifies(bets, u, minBets) {
      QualifiedRowIsSound(bets, minBets, u);
      RowOfUser(bets, u);
      forall i | 0 <= i < |before| ensures before[i].userId != u {
        assert before[i] in before;
      }
      InsertKeeps(before, RowOf(bets, u));
      hide SoundRow, Descends;
      return Insert(before, RowOf(bets, u));
    }
    return before;
  }

  lemma RowOfUser(bets: seq<Bet>, u: nat)
    ensures RowOf(bets, u).userId == u
  {
  }

  /** No user from n on has a bet. */
  lemma {:induction false} UsersAreBounded(bets: seq<Bet>) returns (n: nat)
    ensures forall b :: 0 <= b < |bets| ==> bets[b].userId < n
  {
    if |bets| == 0 {
      return 0;
    }
    var front := UsersAreBounded(bets[..|bets| - 1]);
    var last := bets[|bets| - 1].userId;
    n := if last < front then front else last + 1;
  }

  lemma StrangersHaveNoRow(bets: seq<Bet>, u: nat)
    requires forall b :: 0 <= b < |bets| ==> bets[b].userId != u
    ensures RowOf(bets, u).total == 0
  {
    SelectUniform(bets, DecidedBy(u), false);
  }

  /** For every bet history there is a leaderboard. */
  lemma LeaderboardExists(bets: seq<Bet>, minBets: int) returns (rows: seq<Row>)
    requires forall b :: 0 <= b < |bets| ==> SoundBet(bets[b])
    ensures IsLeaderboard(rows, bets, minBets)
  {
    var n := UsersAreBounded(bets);
    rows := BoardExists(bets, minBets, n);
    forall u: nat | Qualifies(bets, u, minBets) ensures exists i :: 0 <= i < |rows| && rows[i].userId == u {
      if u >= n {
        StrangersHaveNoRow(bets, u);
      }
      RowOfUser(bets, u);
      assert RowOf(bets, u) in rows;
    }
    hide RowOf, Qualifies, SqlBefore, SoundRow, SoundBet;
    forall i | 0 <= i < |rows| ensures rows[i] == RowOf(bets, rows[i].userId) && Qualifies(bets, rows[i].userId, minBets) {
      assert rows[i] in rows;
    }
  }

  // ---------- uniqueness ----------

  lemma {:induction false} SameRowsSameOrder(a: seq<Row>, b: seq<Row>)
    requires Descends(a) && Descends(b) && forall r :: r in a <==> r in b
    ensures a == b
  {
    hide SqlBefore, SoundRow;
    if |a| == 0 {
      HeadIsIn(b);
    } else {
      assert a[0] in b && b[0] in a;
      var k :| 0 <= k < |b| && b[k] == a[0];
      var j :| 0 <= j < |a| && a[j] == b[0];
      NotBoth(a[0], b[0]);
      assert a[0] == b[0];
      forall r ensures r in a[1..] <==> r in b[1..] {
        TailWithoutHead(a, r);
        TailWithoutHead(b, r);
      }
      SameRowsSameOrder(a[1..], b[1..]);
      assert a == [a[0]] + a[1..] && b == [b[0]] + b[1..];
    }
  }

  lemma HeadIsIn(rows: seq<Row>)
    ensures rows == [] || rows[0] in rows
  {
  }

  lemma NotBoth(a: Row, b: Row)
    ensures !(SqlBefore(a, b) && SqlBefore(b, a))
  {
  }

  lemma TailWithoutHead(rows: seq<Row>, r: Row)
    requires |rows| > 0 && Descends(rows)
    ensures r in rows[1..] <==> r in rows && r != rows[0]
  {
    hide SqlBefore, SoundRow;
    NotBoth(rows[0], rows[0]);
    assert rows == [rows[0]] + rows[1..];
    if r in rows[1..] {
      var k :| 0 <= k < |rows[1..]| && rows[1..][k] == r;
      assert SqlBefore(rows[0], rows[k + 1]);
    }
  }

  /** And there is only one. */
  lemma LeaderboardIsUnique(a: seq<Row>, b: seq<Row>, bets: seq<Bet>, minBets: int)
    requires forall i :: 0 <= i < |bets| ==> SoundBet(bets[i])
    requires IsLeaderboard(a, bets, minBets) && IsLeaderboard(b, bets, minBets)
    ensures a == b
  {
    hide RowOf, Qualifies, SqlBefore, SoundRow, SoundBet;
    BoardDescends(a, bets, minBets);
    BoardDescends(b, bets, minBets);
    forall r | r in a ensures r in b {
      InBoth(a, b, bets, minBets, r);
    }
    forall r | r in b ensures r in a {
      InBoth(b, a, bets, minBets, r);
    }
    SameRowsSameOrder(a, b);
  }

  lemma InBoth(a: seq<Row>, b: seq<Row>, bets: seq<Bet>, minBets: int, r: Row)
    requires IsLeaderboard(a, bets, minBets) && IsLeaderboard(b, bets, minBets) && r in a
    ensures r in b
  {
    hide RowOf, Qualifies, SqlBefore;
    var i :| 0 <= i < |a| && a[i] == r;
    var j :| 0 <= j < |b| && b[j].userId == r.userId;
  }

  lemma BoardDescends(rows: seq<Row>, bets: seq<Bet>, minBets: int)
    requires forall i :: 0 <= i < |bets| ==> SoundBet(bets[i])
    requires IsLeaderboard(rows, bets, minBets)
    ensures Descends(rows)
  {
    hide RowOf, Qualifies, SqlBefore, SoundRow, SoundBet;
    forall i | 0 <= i < |rows| ensures SoundRow(rows[i]) {
      QualifiedRowIsSound(bets, minBets, rows[i].userId);
    }
  }
}
