/** How far a settlement gets on its own: to its listing, through its bets, and to its commit, while the rows it needs are free. */
module Progress {
  import opened Domain
  import Payout
  import opened Ledger
  import opened Settlement
  import opened ReadCommitted
  import opened Interleaving
  import opened Deadlock

  /** Only t moved, and it committed nothing. */
  predicate Away(s: Sys, next: Sys, t: nat) {
    SameTables(s, next) && SameOthers(s, next, t) && next.nextBet == s.nextBet && next.nextUser == s.nextUser
  }

  /** Among the locks t has now are no others than before and these. */
  ghost predicate LocksOnly(s: Sys, next: Sys, t: nat, rows: set<Res>) {
    forall r :: Held(next, t, r) ==> Held(s, t, r) || r in rows
  }

  predicate AllFree(s: Sys, t: nat, rows: set<Res>) {
    forall r :: r in rows ==> Free(s, t, r)
  }

  /** Turns that only move t on. */
  predicate Only(turns: seq<Turn>, t: nat) {
    forall i :: 0 <= i < |turns| ==> turns[i] == Go(t)
  }

  lemma FreeIsUnlocked(s: Sys, t: nat, r: Res)
    ensures Free(s, t, r) <==> r !in Unlocked(s.locks, t)
  {
  }

  lemma FreeStays(s: Sys, next: Sys, t: nat, rows: set<Res>)
    requires SameOthers(s, next, t) && AllFree(s, t, rows)
    ensures AllFree(next, t, rows)
  {
    forall r | r in rows ensures Free(next, t, r) {
      FreeIsUnlocked(s, t, r);
      FreeIsUnlocked(next, t, r);
    }
  }

  lemma ScheduleOne(s: Sys, turn: Turn)
    ensures Schedule(s, [turn]) == Next(s, turn)
  {
    hide Next;
    assert |[turn][1..]| == 0;
    assert Schedule(Next(s, turn), [turn][1..]) == Next(s, turn);
  }

  lemma {:induction false} ScheduleAppend(s: Sys, a: seq<Turn>, b: seq<Turn>)
    ensures Schedule(s, a + b) == Schedule(Schedule(s, a), b)
    decreases |a|
  {
    hide Next;
    if |a| == 0 {
      assert a + b == b;
    } else {
      assert (a + b)[1..] == a[1..] + b;
      ScheduleAppend(Next(s, a[0]), a[1..], b);
    }
  }

  /** One turn, then others. */
  lemma ScheduleCons(s: Sys, turn: Turn, rest: seq<Turn>)
    ensures Schedule(s, [turn] + rest) == Schedule(Next(s, turn), rest)
  {
    hide Next;
    assert ([turn] + rest)[1..] == rest;
  }

  // ---------- markets and outcomes ----------

  predicate Open(s: Sys, t: nat) {
    t in s.txs && s.txs[t].job.SettleJob?
  }

  function MarkRows(job: Job): set<Res>
    requires job.SettleJob?
  {
    set i | 0 <= i < |job.marks| :: MarketRow(job.marks[i])
  }

  function RulingRows(job: Job): set<Res>
    requires job.SettleJob?
  {
    set i | 0 <= i < |job.ruling| :: OutcomeRow(job.ruling[i].outcomeId)
  }

  lemma {:induction false} MarkAll(s: Sys, t: nat, i: nat) returns (turns: seq<Turn>)
    requires Open(s, t) && s.txs[t].pc == Marking(i) && i <= |s.txs[t].job.marks| && AllFree(s, t, MarkRows(s.txs[t].job))
    ensures Only(turns, t)
    ensures var now := Schedule(s, turns);
      Away(s, now, t) && t in now.txs && now.txs[t] == s.txs[t].(pc := Ruling(0)) && LocksOnly(s, now, t, MarkRows(s.txs[t].job))
    decreases |s.txs[t].job.marks| - i
  {
    var next, marks := Next(s, Go(t)), s.txs[t].job.marks;
    if i < |marks| {
      assert MarketRow(marks[i]) in MarkRows(s.txs[t].job);
      FreeStays(s, next, t, MarkRows(s.txs[t].job));
      hide Next, AllFree, Free;
      var rest := MarkAll(next, t, i + 1);
      ScheduleCons(s, Go(t), rest);
      return [Go(t)] + rest;
    } else {
      ScheduleOne(s, Go(t));
      return [Go(t)];
    }
  }

  lemma {:induction false} RuleAll(s: Sys, t: nat, i: nat) returns (turns: seq<Turn>)
    requires Open(s, t) && s.txs[t].pc == Ruling(i) && i <= |s.txs[t].job.ruling| && AllFree(s, t, RulingRows(s.txs[t].job))
    ensures Only(turns, t)
    ensures var now := Schedule(s, turns);
      Away(s, now, t) && t in now.txs && now.txs[t] == s.txs[t].(pc := Listing) && LocksOnly(s, now, t, RulingRows(s.txs[t].job))
    decreases |s.txs[t].job.ruling| - i
  {
    var next, ruling := Next(s, Go(t)), s.txs[t].job.ruling;
    if i < |ruling| {
      assert OutcomeRow(ruling[i].outcomeId) in RulingRows(s.txs[t].job);
      FreeStays(s, next, t, RulingRows(s.txs[t].job));
      hide Next, AllFree, Free;
      var rest := RuleAll(next, t, i + 1);
      ScheduleCons(s, Go(t), rest);
      return [Go(t)] + rest;
    } else {
      ScheduleOne(s, Go(t));
      return [Go(t)];
    }
  }

  /** A settlement that has listed these bets and has them all before it. */
  function WithList(job: Job, items: seq<Listed>): Tx {
    Begin(job).(pc := Paying, todo := items, listed := items)
  }

  function PlanRows(job: Job): set<Res>
    requires job.SettleJob?
  {
    MarkRows(job) + RulingRows(job)
  }

  lemma StartIsAway(s: Sys, t: nat, job: Job)
    requires t !in s.txs && job.SettleJob?
    ensures var begun := Next(s, Start(t, job));
      Away(s, begun, t) && begun.txs == s.txs[t := Begin(job)] && begun.locks == s.locks
  {
  }

  lemma ListStep(s: Sys, t: nat)
    requires Open(s, t) && s.txs[t] == Begin(s.txs[t].job).(pc := Pc.Listing)
    ensures var next := Next(s, Go(t));
      Away(s, next, t) && next.locks == s.locks
      && next.txs == s.txs[t := WithList(s.txs[t].job, ListPending(s.bets, Results(s.txs[t].job), s.nextBet))]
  {
    hide ListPending, ResultsIn;
  }

  lemma AwayTransitive(a: Sys, b: Sys, c: Sys, t: nat, x: set<Res>, y: set<Res>)
    requires Away(a, b, t) && Away(b, c, t) && LocksOnly(a, b, t, x) && LocksOnly(b, c, t, y)
    ensures Away(a, c, t) && LocksOnly(a, c, t, x + y)
  {
  }

  /** From its start to its list, while the rows of its plan are free. */
  lemma RunsToList(s: Sys, t: nat, job: Job) returns (turns: seq<Turn>)
    requires t !in s.txs && job.SettleJob? && AllFree(s, t, PlanRows(job))
    ensures Only(turns, t)
    ensures var now := Schedule(s, [Start(t, job)] + turns);
      && Away(s, now, t) && t in now.txs && now.txs[t] == WithList(job, ListPending(s.bets, Results(job), s.nextBet))
      && LocksOnly(s, now, t, PlanRows(job))
  {
    hide ListPending, Results, MarkRows, RulingRows, Next, SameOthers, SameTables;
    var begun := Next(s, Start(t, job));
    StartIsAway(s, t, job);
    FreeStays(s, begun, t, PlanRows(job));
    var marks := MarkAll(begun, t, 0);
    var marked := Schedule(begun, marks);
    FreeStays(begun, marked, t, PlanRows(job));
    var rules := RuleAll(marked, t, 0);
    var ruled := Schedule(marked, rules);
    ListStep(ruled, t);
    AwayTransitive(s, begun, marked, t, {}, MarkRows(job));
    AwayTransitive(s, marked, ruled, t, {} + MarkRows(job), RulingRows(job));
    AwayTransitive(s, ruled, Next(ruled, Go(t)), t, {} + MarkRows(job) + RulingRows(job), {});
    turns := marks + rules + [Go(t)];
    ScheduleCons(s, Start(t, job), turns);
    ScheduleAppend(begun, marks + rules, [Go(t)]);
    ScheduleAppend(begun, marks, rules);
    ScheduleOne(ruled, Go(t));
    assert SameTables(s, ruled) by {
      assert Away(s, ruled, t);
    }
    assert ruled.bets == s.bets by {
      SameBets(s, ruled);
    }
  }

  lemma SameBets(s: Sys, next: Sys)
    requires SameTables(s, next)
    ensures next.bets == s.bets && next.wallets == s.wallets && next.ledger == s.ledger
  {
  }

  // ---------- bets ----------

  /** The wallet row it credits, if any, and the bet row it decides. */
  function ItemRows(job: Job, item: Listed): set<Res> {
    (if Pays(Results(job), item) then {WalletRow(item.bet.userId)} else {}) + {BetRow(item.id)}
  }

  ghost predicate AtBets(s: Sys, t: nat) {
    Inv(s) && Open(s, t) && s.txs[t].pc.Paying?
  }

  /** What the invariant says of the next bet to be settled. */
  lemma HeadStands(s: Sys, t: nat)
    requires Inv(s) && Open(s, t) && |s.txs[t].todo| > 0 && HasListed(s.txs[t])
    ensures var item := s.txs[t].todo[0];
      && item.bet.outcomeId in Results(s.txs[t].job) && item.id in s.bets && item.bet.userId in s.wallets
      && item.bet.stake > 0 && item.bet.payout > 0 && Balance(s, s.txs[t], item.bet.userId) >= 0
  {
    hide ResultsIn, RowsFit, PcFits, Chained;
    var tx, item := s.txs[t], s.txs[t].todo[0];
    assert TxInv(s, t, tx) && TodoFits(s, tx, 0);
    assert BetRowFits(s.wallets, s.nextBet, item.id, item.bet);
    Payout.PayoutIsFloor(item.bet.stake, item.bet.odds);
    hide Payout.ComputePotentialPayout;
  }

  function Credited(item: Listed, results: map<nat, Result>): Move
    requires item.bet.outcomeId in results
  {
    CreditOf(item, results[item.bet.outcomeId])
  }

  lemma StartsPaying(s: Sys, t: nat)
    requires AtBets(s, t) && |s.txs[t].todo| > 0
    requires AllFree(s, t, ItemRows(s.txs[t].job, s.txs[t].todo[0]))
    ensures var tx, item, next := s.txs[t], s.txs[t].todo[0], Next(s, Go(t));
      && item.bet.outcomeId in Results(tx.job) && Away(s, next, t) && t in next.txs
      && LocksOnly(s, next, t, ItemRows(tx.job, item))
      && next.txs[t] == tx.(pc := if Pays(Results(tx.job), item) then Crediting(Credited(item, Results(tx.job))) else Deciding)
  {
    HeadStands(s, t);
    hide Inv, ResultsIn, CreditOf;
  }

  lemma Credits(s: Sys, t: nat)
    requires Inv(s) && Open(s, t) && |s.txs[t].todo| > 0 && s.txs[t].todo[0].bet.outcomeId in Results(s.txs[t].job)
    requires s.txs[t].pc == Crediting(Credited(s.txs[t].todo[0], Results(s.txs[t].job)))
    ensures var tx, next, u := s.txs[t], Next(s, Go(t)), s.txs[t].todo[0].bet.userId;
      && Away(s, next, t) && t in next.txs && next.locks == s.locks
      && next.txs[t].pc.Recording? && next.txs[t] == tx.(pc := next.txs[t].pc, w := next.txs[t].w)
  {
    HeadStands(s, t);
    NextStatementFits(s, t);
    hide Inv, ResultsIn, MoveFits;
    assert s.locks[WalletRow(s.txs[t].pc.move.user) := t] == s.locks;
  }

  lemma Records(s: Sys, t: nat)
    requires Open(s, t) && s.txs[t].pc.Recording?
    ensures var tx, next := s.txs[t], Next(s, Go(t));
      && Away(s, next, t) && t in next.txs && next.locks == s.locks
      && next.txs[t] == tx.(pc := Deciding, rows := next.txs[t].rows)
  {
  }

  lemma Decides(s: Sys, t: nat)
    requires Inv(s) && Open(s, t) && s.txs[t].pc.Deciding? && |s.txs[t].todo| > 0 && Free(s, t, BetRow(s.txs[t].todo[0].id))
    ensures var tx, next := s.txs[t], Next(s, Go(t));
      && Away(s, next, t) && t in next.txs && LocksOnly(s, next, t, {BetRow(tx.todo[0].id)})
      && next.txs[t] == tx.(pc := Paying, todo := tx.todo[1..], written := next.txs[t].written)
  {
    HeadStands(s, t);
    hide Inv, ResultsIn;
  }

  /** t went from its next bet's listing to that bet's decision. */
  ghost predicate ReadyToDecide(s: Sys, now: Sys, t: nat) {
    && Open(s, t) && |s.txs[t].todo| > 0 && Inv(now) && Away(s, now, t) && Open(now, t) && now.txs[t].pc.Deciding?
    && LocksOnly(s, now, t, ItemRows(s.txs[t].job, s.txs[t].todo[0]))
    && now.txs[t].job == s.txs[t].job && now.txs[t].listed == s.txs[t].listed && now.txs[t].todo == s.txs[t].todo
  }

  lemma PaysHead(s: Sys, t: nat)
    requires AtBets(s, t) && |s.txs[t].todo| > 0 && Pays(Results(s.txs[t].job), s.txs[t].todo[0])
    requires AllFree(s, t, ItemRows(s.txs[t].job, s.txs[t].todo[0]))
    ensures ReadyToDecide(s, Next(Next(Next(s, Go(t)), Go(t)), Go(t)), t)
  {
    hide Inv, Next, Results, SameOthers, SameTables, Credited, ItemRows, AllFree;
    var rows := ItemRows(s.txs[t].job, s.txs[t].todo[0]);
    StartsPaying(s, t);
    var crediting := Next(s, Go(t));
    NextKeepsInv(s, Go(t));
    Credits(crediting, t);
    NextKeepsInv(crediting, Go(t));
    var recording := Next(crediting, Go(t));
    Records(recording, t);
    NextKeepsInv(recording, Go(t));
    AwayTransitive(s, crediting, recording, t, rows, {});
    AwayTransitive(s, recording, Next(recording, Go(t)), t, rows + {}, {});
    assert rows + {} + {} == rows;
  }

  lemma DecidesHead(s: Sys, now: Sys, t: nat)
    requires ReadyToDecide(s, now, t) && AllFree(s, t, ItemRows(s.txs[t].job, s.txs[t].todo[0]))
    ensures var tx, next := s.txs[t], Next(now, Go(t));
      && Away(s, next, t) && AtBets(next, t) && LocksOnly(s, next, t, ItemRows(tx.job, tx.todo[0]))
      && next.txs[t].job == tx.job && next.txs[t].listed == tx.listed && next.txs[t].todo == tx.todo[1..]
  {
    var rows, row := ItemRows(s.txs[t].job, s.txs[t].todo[0]), BetRow(s.txs[t].todo[0].id);
    assert row in rows && rows + {row} == rows;
    FreeStays(s, now, t, rows);
    hide Inv, Next, Results, SameOthers, SameTables, Free, ItemRows;
    Decides(now, t);
    NextKeepsInv(now, Go(t));
    AwayTransitive(s, now, Next(now, Go(t)), t, rows, {row});
  }

  /** Past its next bet, while the rows of that bet are free. */
  lemma SettlesOne(s: Sys, t: nat) returns (turns: seq<Turn>)
    requires AtBets(s, t) && |s.txs[t].todo| > 0
    requires AllFree(s, t, ItemRows(s.txs[t].job, s.txs[t].todo[0]))
    ensures Only(turns, t)
    ensures var tx, now := s.txs[t], Schedule(s, turns);
      && Away(s, now, t) && AtBets(now, t) && LocksOnly(s, now, t, ItemRows(tx.job, tx.todo[0]))
      && now.txs[t].job == tx.job && now.txs[t].listed == tx.listed && now.txs[t].todo == tx.todo[1..]
  {
    hide Inv, Next, Results, SameOthers, SameTables, LocksOnly, AllFree, ItemRows, Away, Credited;
    var pays := Pays(Results(s.txs[t].job), s.txs[t].todo[0]);
    StartsPaying(s, t);
    NextKeepsInv(s, Go(t));
    if pays {
      PaysHead(s, t);
    }
    var one := Next(s, Go(t));
    var last := if pays then Next(Next(one, Go(t)), Go(t)) else one;
    assert ReadyToDecide(s, last, t);
    DecidesHead(s, last, t);
    turns := if pays then [Go(t)] + ([Go(t)] + ([Go(t)] + [Go(t)])) else [Go(t)] + [Go(t)];
    ScheduleOne(last, Go(t));
    if pays {
      ScheduleCons(Next(one, Go(t)), Go(t), [Go(t)]);
      ScheduleCons(one, Go(t), [Go(t)] + [Go(t)]);
      ScheduleCons(s, Go(t), [Go(t)] + ([Go(t)] + [Go(t)]));
    } else {
      ScheduleCons(s, Go(t), [Go(t)]);
    }
  }

  /** The rows the first k bets of a list need. */
  function ItemsRows(job: Job, items: seq<Listed>): set<Res> {
    if |items| == 0 then {} else ItemRows(job, items[0]) + ItemsRows(job, items[1..])
  }

  /** t has passed the next k of its bets and nothing else has happened. */
  ghost predicate PastItems(s: Sys, now: Sys, t: nat, k: nat) {
    && Open(s, t) && k <= |s.txs[t].todo| && Away(s, now, t) && AtBets(now, t)
    && LocksOnly(s, now, t, ItemsRows(s.txs[t].job, s.txs[t].todo[..k]))
    && now.txs[t].job == s.txs[t].job && now.txs[t].listed == s.txs[t].listed && now.txs[t].todo == s.txs[t].todo[k..]
  }

  lemma NonePassed(s: Sys, t: nat)
    requires CanPass(s, t, 0)
    ensures PastItems(s, Schedule(s, []), t, 0)
  {
  }

  /** The next k bets are there and their rows are free. */
  ghost predicate CanPass(s: Sys, t: nat, k: nat) {
    AtBets(s, t) && k <= |s.txs[t].todo| && AllFree(s, t, ItemsRows(s.txs[t].job, s.txs[t].todo[..k]))
  }

  lemma OnePassed(s: Sys, t: nat) returns (turns: seq<Turn>)
    requires CanPass(s, t, 1)
    ensures Only(turns, t) && PastItems(s, Schedule(s, turns), t, 1)
  {
    hide Inv, Next, Results, SameOthers, SameTables, ItemRows, AllFree, Schedule, Away, LocksOnly;
    var one := s.txs[t].todo[..1];
    assert one[1..] == [] && ItemsRows(s.txs[t].job, one) == ItemRows(s.txs[t].job, one[0]) + {};
    assert ItemsRows(s.txs[t].job, one) == ItemRows(s.txs[t].job, s.txs[t].todo[0]);
    turns := SettlesOne(s, t);
  }

  lemma PassedOn(s: Sys, mid: Sys, now: Sys, t: nat, k: nat)
    requires PastItems(s, mid, t, 1) && PastItems(mid, now, t, k)
    ensures PastItems(s, now, t, k + 1)
  {
    hide Inv, Next, Results, SameOthers, SameTables, ItemRows;
    var job, todo := s.txs[t].job, s.txs[t].todo;
    assert todo[..k + 1][0] == todo[0] && todo[..k + 1][1..] == mid.txs[t].todo[..k];
    assert todo[..1][0] == todo[0] && todo[..1][1..] == [];
    assert ItemsRows(job, todo[..1]) == ItemRows(job, todo[0]) + {};
    AwayTransitive(s, mid, now, t, ItemsRows(job, todo[..1]), ItemsRows(job, mid.txs[t].todo[..k]));
  }

  lemma FewerCanPass(s: Sys, t: nat, k: nat)
    requires CanPass(s, t, k) && k > 0
    ensures CanPass(s, t, 1)
  {
    hide Inv, Results, ItemRows, Free;
    var job, todo := s.txs[t].job, s.txs[t].todo;
    assert todo[..k][0] == todo[0] && todo[..1][0] == todo[0] && todo[..1][1..] == [];
    assert ItemsRows(job, todo[..1]) == ItemRows(job, todo[0]) + {} <= ItemsRows(job, todo[..k]);
  }

  lemma RestCanPass(s: Sys, mid: Sys, t: nat, k: nat)
    requires CanPass(s, t, k) && k > 0 && PastItems(s, mid, t, 1)
    ensures CanPass(mid, t, k - 1)
  {
    hide Inv, Results, SameOthers, SameTables, ItemRows, Free;
    var job, todo := s.txs[t].job, s.txs[t].todo;
    FreeStays(s, mid, t, ItemsRows(job, todo[..k]));
    assert todo[..k][1..] == mid.txs[t].todo[..k - 1];
    assert ItemsRows(job, mid.txs[t].todo[..k - 1]) <= ItemsRows(job, todo[..k]);
  }

  /** Past its next k bets, while their rows are free. */
  lemma {:induction false} SettlesMany(s: Sys, t: nat, k: nat) returns (turns: seq<Turn>)
    requires CanPass(s, t, k)
    ensures Only(turns, t) && PastItems(s, Schedule(s, turns), t, k)
    decreases k
  {
    hide CanPass, PastItems, Schedule;
    if k == 0 {
      NonePassed(s, t);
      return [];
    }
    FewerCanPass(s, t, k);
    var first := OnePassed(s, t);
    var mid := Schedule(s, first);
    RestCanPass(s, mid, t, k);
    var rest := SettlesMany(mid, t, k - 1);
    PassedOn(s, mid, Schedule(mid, rest), t, k - 1);
    ScheduleAppend(s, first, rest);
    return first + rest;
  }
}
