/** Settlements of different events can wait for each other exactly when their walks are tangled. */
module Tangles {
  import opened Domain
  import opened Ledger
  import opened Settlement
  import opened ReadCommitted
  import opened Interleaving
  import opened Serializability
  import opened Deadlock
  import opened Service
  import opened EventJobs
  import opened Progress
  import opened Crossing
  import Runs

  function WalksFrom(rest: Sys, jobs: seq<Job>): (walks: seq<seq<nat>>)
    ensures |walks| == |jobs|
  {
    seq(|jobs|, t requires 0 <= t < |jobs| => WalkOf(ListNow(rest, jobs[t]), Results(jobs[t])))
  }

  // ---------- a wait cycle is a ring ----------

  ghost predicate Ready(rest: Sys, s: Sys, jobs: seq<Job>) {
    Inv(s) && AllInOrder(s) && WalletsHeld(s) && AllApart(jobs) && Tracked(rest, s, jobs)
  }

  /** Where each settlement stands on its walk. */
  function Positions(s: Sys, n: nat): (at: seq<nat>)
    ensures |at| == n
  {
    seq(n, t requires 0 <= t < n => if t in s.txs && 0 <= Behind(s.txs[t]) then Position(s.txs[t]) else 0)
  }

  /** x stands on its walk in front of wallet u. */
  predicate Stands(rest: Sys, s: Sys, jobs: seq<Job>, x: nat, u: nat) {
    && x < |jobs| && x in s.txs && 0 <= Behind(s.txs[x]) <= |s.txs[x].listed| && s.txs[x].job == jobs[x]
    && var walk, n := WalksFrom(rest, jobs)[x], Positions(s, |jobs|)[x];
       n < |walk| && walk[n] == u && walk[..n] == WalkOf(s.txs[x].listed[..Behind(s.txs[x])], Results(jobs[x]))
  }

  lemma PayerStands(rest: Sys, s: Sys, jobs: seq<Job>, x: nat, u: nat, q: nat)
    requires Inv(s) && WaitsFor(s, x, u, q) && InOrder(s.txs[x]) && s.txs[x].pc.Paying? && s.txs[x].job.SettleJob?
    requires TxTracked(s, jobs, x) && Found(rest, s, jobs[x])
    ensures Stands(rest, s, jobs, x, u)
  {
    hide Inv, InOrder, Results, ListNow, WalkOf;
    StandsInFront(s, x, u, q);
  }

  lemma MemberStands(rest: Sys, s: Sys, jobs: seq<Job>, ts: seq<nat>, ws: seq<nat>, k: nat)
    requires Ready(rest, s, jobs) && WaitCycle(s, ts, ws) && k < |ts|
    ensures Stands(rest, s, jobs, ts[k], ws[k])
  {
    hide Inv, WaitCycle, WalletsHeld, InOrder, TxTracked, Found, Stands;
    CycleWaits(s, ts, ws, k);
    MemberIsPaying(s, ts, ws, k);
    assert TxTracked(s, jobs, ts[k]);
    TrackedIsOne(s, jobs, ts[k]);
    assert Found(rest, s, jobs[ts[k]]);
    PayerStands(rest, s, jobs, ts[k], ws[k], Neighbour(ts, k));
  }

  lemma TrackedIsOne(s: Sys, jobs: seq<Job>, t: nat)
    requires t in s.txs && TxTracked(s, jobs, t)
    ensures t < |jobs|
  {
  }

  lemma CreditedIsHeld(s: Sys, t: nat, u: nat)
    requires Inv(s) && t in s.txs && InOrder(s.txs[t]) && s.txs[t].job.SettleJob? && 0 <= Behind(s.txs[t]) <= |s.txs[t].listed|
    requires u in WalkOf(s.txs[t].listed[..Behind(s.txs[t])], Results(s.txs[t].job))
    ensures Held(s, t, WalletRow(u))
  {
    hide Inv, WalkOf, ResultsIn, InOrder;
    var tx := s.txs[t];
    var passed := tx.listed[..Behind(tx)];
    WalkHas(passed, Results(tx.job), u);
    var i :| 0 <= i < |passed| && Pays(Results(tx.job), passed[i]) && passed[i].bet.userId == u;
    PaidIsHeld(s, t, i);
  }

  lemma StandersWait(rest: Sys, s: Sys, jobs: seq<Job>, x: nat, u: nat, y: nat, v: nat)
    requires Stands(rest, s, jobs, x, u) && Stands(rest, s, jobs, y, v) && x != y
    requires s.txs[y].pc.Paying? && s.txs[y].job.SettleJob? && Visited(s.txs[y], u)
    ensures Waits(WalksFrom(rest, jobs), Positions(s, |jobs|), x, y)
  {
    hide ResultsIn, ListPending, WalkOf, WalksFrom, Positions;
    var tx := s.txs[y];
    var i :| 0 <= i < Behind(tx) <= |tx.listed| && Pays(Results(tx.job), tx.listed[i]) && tx.listed[i].bet.userId == u;
    var passed := tx.listed[..Behind(tx)];
    assert passed[i] == tx.listed[i];
    WalkHas(passed, Results(tx.job), u);
  }

  lemma StandersAreApart(rest: Sys, s: Sys, jobs: seq<Job>, x: nat, u: nat, y: nat, v: nat)
    requires Stands(rest, s, jobs, x, u) && Stands(rest, s, jobs, y, v) && x != y && Inv(s)
    requires InOrder(s.txs[x]) && s.txs[x].job.SettleJob? && InOrder(s.txs[y]) && s.txs[y].job.SettleJob?
    ensures PrefixesApart(WalksFrom(rest, jobs), Positions(s, |jobs|), x, y)
  {
    hide Inv, InOrder, ResultsIn, ListPending, WalkOf, WalksFrom, Positions;
    var walks, at := WalksFrom(rest, jobs), Positions(s, |jobs|);
    forall w | w in walks[x][..at[x]] ensures w !in walks[y][..at[y]] {
      if w in walks[y][..at[y]] {
        CreditedIsHeld(s, x, w);
        CreditedIsHeld(s, y, w);
      }
    }
  }

  lemma HeldIsVisited(s: Sys, t: nat, u: nat, q: nat)
    requires WalletsHeld(s) && WaitsFor(s, t, u, q)
    ensures q in s.txs && Visited(s.txs[q], u) && t != q
  {
    hide Visited;
  }

  lemma NeighbourIsAhead(rest: Sys, s: Sys, jobs: seq<Job>, ts: seq<nat>, ws: seq<nat>, k: nat)
    requires Ready(rest, s, jobs) && WaitCycle(s, ts, ws) && k < |ts|
    ensures Waits(WalksFrom(rest, jobs), Positions(s, |jobs|), ts[k], Neighbour(ts, k))
  {
    var next := After(|ts|, k);
    MemberStands(rest, s, jobs, ts, ws, k);
    MemberStands(rest, s, jobs, ts, ws, next);
    MemberIsPaying(s, ts, ws, k);
    MemberIsPaying(s, ts, ws, next);
    hide Inv, WaitCycle, WalletsHeld, WaitsFor, AllInOrder, Tracked, Stands, Visited;
    HeldIsVisited(s, ts[k], ws[k], ts[next]);
    StandersWait(rest, s, jobs, ts[k], ws[k], ts[next], ws[next]);
  }

  lemma MembersAreApart(rest: Sys, s: Sys, jobs: seq<Job>, ts: seq<nat>, ws: seq<nat>, k: nat, l: nat)
    requires Ready(rest, s, jobs) && WaitCycle(s, ts, ws) && k < |ts| && l < |ts| && ts[k] != ts[l]
    ensures PrefixesApart(WalksFrom(rest, jobs), Positions(s, |jobs|), ts[k], ts[l])
  {
    MemberStands(rest, s, jobs, ts, ws, k);
    MemberStands(rest, s, jobs, ts, ws, l);
    MemberIsPaying(s, ts, ws, k);
    MemberIsPaying(s, ts, ws, l);
    hide Inv, WaitCycle, WalletsHeld, WaitsFor, AllInOrder, Tracked, InOrder;
    assert ts[k] in s.txs && ts[l] in s.txs;
    hide Stands;
    StandersAreApart(rest, s, jobs, ts[k], ws[k], ts[l], ws[l]);
  }

  lemma CycleIsRing(rest: Sys, s: Sys, jobs: seq<Job>, ts: seq<nat>, ws: seq<nat>)
    requires Ready(rest, s, jobs) && WaitCycle(s, ts, ws)
    ensures Ring(WalksFrom(rest, jobs), Positions(s, |jobs|), ts)
  {
    hide Ready, Waits, PrefixesApart, WalkOf, Position;
    var walks, at := WalksFrom(rest, jobs), Positions(s, |jobs|);
    assert |walks| == |at| == |jobs| && |ts| > 0;
    hide WaitCycle, WalksFrom, Positions;
    forall k | 0 <= k < |ts| ensures Waits(walks, at, ts[k], Neighbour(ts, k)) {
      NeighbourIsAhead(rest, s, jobs, ts, ws, k);
    }
    forall x, y | x in ts && y in ts && x != y ensures PrefixesApart(walks, at, x, y) {
      var k :| 0 <= k < |ts| && ts[k] == x;
      var l :| 0 <= l < |ts| && ts[l] == y;
      MembersAreApart(rest, s, jobs, ts, ws, k, l);
    }
  }

  // ---------- a ring is reached ----------

  /** How many bets of its list a settlement has passed when it stands at its position. */
  function Passed(rest: Sys, jobs: seq<Job>, at: seq<nat>, t: nat): (k: nat)
    requires t < |jobs| == |at| && at[t] < |WalksFrom(rest, jobs)[t]|
    ensures var items := ListNow(rest, jobs[t]);
      k < |items| && Pays(Results(jobs[t]), items[k]) && |WalkOf(items[..k], Results(jobs[t]))| == at[t]
  {
    ItemAt(ListNow(rest, jobs[t]), Results(jobs[t]), at[t])
  }

  /** The rows a settlement has locked by then. */
  function RowsUpTo(rest: Sys, job: Job, k: nat): set<Res>
    requires job.SettleJob? && k <= |ListNow(rest, job)|
  {
    PlanRows(job) + ItemsRows(job, ListNow(rest, job)[..k])
  }

  /** t stands in front of the k-th bet of its list, and holds rows of its plan and of the bets before only. */
  ghost predicate InPlace(rest: Sys, s: Sys, jobs: seq<Job>, t: nat, k: nat)
    requires t < |jobs| && jobs[t].SettleJob? && k <= |ListNow(rest, jobs[t])|
  {
    && t in s.txs && s.txs[t].pc.Paying? && s.txs[t].job == jobs[t]
    && s.txs[t].listed == ListNow(rest, jobs[t]) && s.txs[t].todo == s.txs[t].listed[k..]
    && forall r :: Held(s, t, r) ==> r in RowsUpTo(rest, jobs[t], k)
  }

  lemma {:induction false} ItemsRowsHave(job: Job, items: seq<Listed>, r: Res)
    ensures r in ItemsRows(job, items) <==> exists i :: 0 <= i < |items| && r in ItemRows(job, items[i])
  {
    hide ItemRows;
    if |items| > 0 {
      ItemsRowsHave(job, items[1..], r);
      if i :| 0 <= i < |items| && r in ItemRows(job, items[i]) {
        assert i > 0 ==> items[1..][i - 1] == items[i];
      }
    }
  }

  /** Rows for bets are wallets on the walk and bets with an outcome of the plan. */
  lemma ItemsRowsAre(rest: Sys, job: Job, k: nat, r: Res)
    requires job.SettleJob? && k <= |ListNow(rest, job)| && r in ItemsRows(job, ListNow(rest, job)[..k])
    ensures r.WalletRow? || r.BetRow?
    ensures r.WalletRow? ==> r.id in WalkOf(ListNow(rest, job)[..k], Results(job))
    ensures r.BetRow? ==> r.id in rest.bets && rest.bets[r.id].outcomeId in Results(job)
  {
    var items := ListNow(rest, job)[..k];
    ItemsRowsHave(job, items, r);
    var i :| 0 <= i < |items| && r in ItemRows(job, items[i]);
    ListPendingFits(rest.bets, Results(job), rest.nextBet);
    assert ListedFrom(rest.bets, Results(job), rest.nextBet, ListNow(rest, job)[i]);
    hide ListNow, ListPending, WalkOf, Results;
    WalkHas(items, Results(job), items[i].bet.userId);
  }

  lemma PlanRowsAre(job: Job, r: Res)
    requires job.SettleJob? && r in PlanRows(job)
    ensures r.MarketRow? || r.OutcomeRow?
    ensures r.MarketRow? ==> r.id in job.marks
    ensures r.OutcomeRow? ==> r.id in Results(job)
  {
    ResultsInEntries(job.ruling);
    hide ResultsIn;
  }

  /** Two settlements with no plan row and no wallet in common so far hold no row in common. */
  lemma RowsApart(rest: Sys, a: Job, k: nat, b: Job, l: nat, r: Res)
    requires a.SettleJob? && b.SettleJob? && Apart(a, b) && k <= |ListNow(rest, a)| && l <= |ListNow(rest, b)|
    requires forall u :: u in WalkOf(ListNow(rest, a)[..k], Results(a)) ==> u !in WalkOf(ListNow(rest, b)[..l], Results(b))
    requires r in RowsUpTo(rest, a, k)
    ensures r !in RowsUpTo(rest, b, l)
  {
    hide PlanRows, ItemsRows, ListNow, WalkOf, Results;
    var rowsA, rowsB := ItemsRows(a, ListNow(rest, a)[..k]), ItemsRows(b, ListNow(rest, b)[..l]);
    if r in RowsUpTo(rest, b, l) {
      if r in rowsA {
        ItemsRowsAre(rest, a, k, r);
      } else {
        PlanRowsAre(a, r);
      }
      if r in rowsB {
        ItemsRowsAre(rest, b, l, r);
      } else {
        PlanRowsAre(b, r);
      }
      assert false;
    }
  }

  /** All the settlements of the ring below n are in place, and nothing else is under way. */
  ghost predicate Staged(rest: Sys, s: Sys, jobs: seq<Job>, at: seq<nat>, ring: seq<nat>, n: nat) {
    && Inv(s) && AllInOrder(s) && WalletsHeld(s) && SameTables(rest, s) && s.nextBet == rest.nextBet
    && (forall t: nat :: t in s.txs <==> t < n && t in ring)
    && (forall t: nat :: t < n && t in ring ==> Placed(rest, s, jobs, at, t))
    && (forall r :: r in s.locks ==> s.locks[r] in s.txs)
  }

  ghost predicate Placed(rest: Sys, s: Sys, jobs: seq<Job>, at: seq<nat>, t: nat) {
    && t < |jobs| == |at| && jobs[t].SettleJob? && at[t] < |WalksFrom(rest, jobs)[t]|
    && InPlace(rest, s, jobs, t, Passed(rest, jobs, at, t))
  }

  /** What the ring says of one of its settlements. */
  ghost predicate Member(rest: Sys, jobs: seq<Job>, at: seq<nat>, ring: seq<nat>, t: nat) {
    && t in ring && t < |jobs| == |at| && at[t] < |WalksFrom(rest, jobs)[t]|
  }

  lemma RingMembers(rest: Sys, jobs: seq<Job>, at: seq<nat>, ring: seq<nat>, t: nat)
    requires Ring(WalksFrom(rest, jobs), at, ring) && t in ring
    ensures Member(rest, jobs, at, ring, t)
  {
    hide WalkOf, ListNow;
    var k :| 0 <= k < |ring| && ring[k] == t;
    assert Waits(WalksFrom(rest, jobs), at, ring[k], Neighbour(ring, k));
  }

  /** The wallets passed are the walk up to the position. */
  lemma PassedWalk(rest: Sys, jobs: seq<Job>, at: seq<nat>, t: nat)
    requires t < |jobs| == |at| && at[t] < |WalksFrom(rest, jobs)[t]|
    ensures var items, k := ListNow(rest, jobs[t]), Passed(rest, jobs, at, t);
      && WalkOf(items[..k], Results(jobs[t])) == WalksFrom(rest, jobs)[t][..at[t]]
      && items[k].bet.userId == WalksFrom(rest, jobs)[t][at[t]]
  {
    hide WalkOf, ListNow, Results, ItemAt;
    WalkPrefix(ListNow(rest, jobs[t]), Results(jobs[t]), Passed(rest, jobs, at, t));
  }

  /** Whatever t needs up to its place is free: the others of the ring hold none of it. */
  lemma WayIsFree(rest: Sys, s: Sys, jobs: seq<Job>, at: seq<nat>, ring: seq<nat>, n: nat)
    requires AllApart(jobs) && Ring(WalksFrom(rest, jobs), at, ring) && Staged(rest, s, jobs, at, ring, n)
    requires Member(rest, jobs, at, ring, n)
    ensures AllFree(s, n, RowsUpTo(rest, jobs[n], Passed(rest, jobs, at, n)))
  {
    hide Inv, AllInOrder, WalletsHeld, SameTables, RowsUpTo, WalkOf, ListNow, Results, Passed, WalksFrom, Apart;
    forall r | r in RowsUpTo(rest, jobs[n], Passed(rest, jobs, at, n)) ensures Free(s, n, r) {
      if r in s.locks {
        var q := s.locks[r];
        assert Placed(rest, s, jobs, at, q) && Held(s, q, r);
        assert PrefixesApart(WalksFrom(rest, jobs), at, n, q);
        PassedWalk(rest, jobs, at, n);
        PassedWalk(rest, jobs, at, q);
        RowsApart(rest, jobs[n], Passed(rest, jobs, at, n), jobs[q], Passed(rest, jobs, at, q), r);
      }
    }
  }

  /** Alone from its start, t gets past the first k bets of its list. */
  lemma RunsToPlace(s: Sys, t: nat, job: Job, k: nat) returns (turns: seq<Turn>)
    requires Inv(s) && t !in s.txs && job.SettleJob? && k <= |ListNow(s, job)| && AllFree(s, t, RowsUpTo(s, job, k))
    requires forall r :: !Held(s, t, r)
    ensures forall i :: 0 <= i < |turns| && turns[i].Start? ==> turns[i] == Start(t, job)
    ensures var now := Schedule(s, turns);
      && Away(s, now, t) && t in now.txs && now.txs[t].pc.Paying? && now.txs[t].job == job
      && now.txs[t].listed == ListNow(s, job) && now.txs[t].todo == now.txs[t].listed[k..]
      && LocksOnly(s, now, t, RowsUpTo(s, job, k))
  {
    hide Inv, Next, Results, ListNow, PlanRows, ItemsRows, SameOthers, SameTables, Free, Schedule;
    var items := ListNow(s, job);
    assert AllFree(s, t, PlanRows(job)) && AllFree(s, t, ItemsRows(job, items[..k]));
    var starting := RunsToList(s, t, job);
    var listed := Schedule(s, [Start(t, job)] + starting);
    ScheduleKeepsInv(s, [Start(t, job)] + starting);
    assert ListPending(s.bets, Results(job), s.nextBet) == items by {
      ListNowIs(s, job);
    }
    FreeStays(s, listed, t, ItemsRows(job, items[..k]));
    var passing := SettlesMany(listed, t, k);
    AwayTransitive(s, listed, Schedule(listed, passing), t, PlanRows(job), ItemsRows(job, items[..k]));
    ScheduleAppend(s, [Start(t, job)] + starting, passing);
    turns := [Start(t, job)] + starting + passing;
  }

  lemma ListNowIs(s: Sys, job: Job)
    ensures ListNow(s, job) == ListPending(s.bets, Results(job), s.nextBet)
  {
  }

  /** t has moved into its place and the others are where they were. */
  lemma StageGrows(rest: Sys, s: Sys, now: Sys, jobs: seq<Job>, at: seq<nat>, ring: seq<nat>, n: nat)
    requires AllApart(jobs) && Staged(rest, s, jobs, at, ring, n) && Member(rest, jobs, at, ring, n)
    requires Inv(now) && AllInOrder(now) && WalletsHeld(now)
    requires Away(s, now, n) && n in now.txs && now.txs[n].pc.Paying? && now.txs[n].job == jobs[n]
    requires now.txs[n].listed == ListNow(rest, jobs[n]) && now.txs[n].todo == now.txs[n].listed[Passed(rest, jobs, at, n)..]
    requires LocksOnly(s, now, n, RowsUpTo(rest, jobs[n], Passed(rest, jobs, at, n)))
    ensures Staged(rest, now, jobs, at, ring, n + 1)
  {
    hide Inv, AllInOrder, WalletsHeld, RowsUpTo, WalkOf, ListNow, Results, Passed, WalksFrom, Apart;
    assert forall r :: !Held(s, n, r);
    forall t: nat ensures t in now.txs <==> t < n + 1 && t in ring {
      assert t != n ==> (t in now.txs <==> t in now.txs - {n}) && (t in s.txs <==> t in s.txs - {n});
    }
    forall r | r in now.locks ensures now.locks[r] in now.txs {
      if now.locks[r] != n {
        assert r in Unlocked(now.locks, n) && r in Unlocked(s.locks, n);
      }
    }
    forall t: nat | t < n && t in ring ensures Placed(rest, now, jobs, at, t) {
      assert Placed(rest, s, jobs, at, t);
      assert t in now.txs - {n} && (now.txs - {n})[t] == (s.txs - {n})[t];
      forall r | Held(now, t, r) ensures Held(s, t, r) {
        assert r in Unlocked(now.locks, n) && r in Unlocked(s.locks, n);
      }
    }
  }

  lemma StageIsOpen(rest: Sys, s: Sys, jobs: seq<Job>, at: seq<nat>, ring: seq<nat>, n: nat)
    requires Staged(rest, s, jobs, at, ring, n)
    ensures Inv(s) && AllInOrder(s) && WalletsHeld(s) && SameTables(rest, s) && s.nextBet == rest.nextBet
    ensures n !in s.txs && forall r :: !Held(s, n, r)
  {
    hide Inv, AllInOrder, WalletsHeld, SameTables, Placed;
  }

  lemma StageSkips(rest: Sys, s: Sys, jobs: seq<Job>, at: seq<nat>, ring: seq<nat>, n: nat)
    requires Staged(rest, s, jobs, at, ring, n) && n !in ring
    ensures Staged(rest, Schedule(s, []), jobs, at, ring, n + 1)
  {
    hide Inv, AllInOrder, WalletsHeld, SameTables, Placed;
  }

  lemma StageNext(rest: Sys, s: Sys, jobs: seq<Job>, at: seq<nat>, ring: seq<nat>, n: nat) returns (turns: seq<Turn>)
    requires AllApart(jobs) && Ring(WalksFrom(rest, jobs), at, ring) && Staged(rest, s, jobs, at, ring, n) && n < |jobs|
    ensures OnlyThese(turns, jobs) && Staged(rest, Schedule(s, turns), jobs, at, ring, n + 1)
  {
    hide Inv, AllInOrder, WalletsHeld, SameTables, RowsUpTo, ListNow, Passed, WalksFrom, Apart, Away, LocksOnly, AllFree,
      Staged, Ring, Schedule;
    if n !in ring {
      StageSkips(rest, s, jobs, at, ring, n);
      return [];
    }
    StageIsOpen(rest, s, jobs, at, ring, n);
    RingMembers(rest, jobs, at, ring, n);
    WayIsFree(rest, s, jobs, at, ring, n);
    var k := Passed(rest, jobs, at, n);
    SameList(rest, s, jobs[n], k);
    turns := RunsToPlace(s, n, jobs[n], k);
    ScheduleKeepsHeld(s, turns);
    StageGrows(rest, s, Schedule(s, turns), jobs, at, ring, n);
  }

  lemma SameList(rest: Sys, s: Sys, job: Job, k: nat)
    requires SameTables(rest, s) && s.nextBet == rest.nextBet && job.SettleJob? && k <= |ListNow(rest, job)|
    ensures ListNow(s, job) == ListNow(rest, job) && RowsUpTo(s, job, k) == RowsUpTo(rest, job, k)
  {
  }

  lemma {:induction false} StageAll(rest: Sys, jobs: seq<Job>, at: seq<nat>, ring: seq<nat>, n: nat) returns (turns: seq<Turn>)
    requires AllApart(jobs) && Ring(WalksFrom(rest, jobs), at, ring) && Staged(rest, rest, jobs, at, ring, 0) && n <= |jobs|
    ensures OnlyThese(turns, jobs) && Staged(rest, Schedule(rest, turns), jobs, at, ring, n)
  {
    hide AllApart, Ring, Staged, Next;
    if n == 0 {
      return [];
    }
    var first := StageAll(rest, jobs, at, ring, n - 1);
    var last := StageNext(rest, Schedule(rest, first), jobs, at, ring, n - 1);
    ScheduleAppend(rest, first, last);
    return first + last;
  }

  /** The wallets the settlements of a ring wait for. */
  function WaitedFor(walks: seq<seq<nat>>, at: seq<nat>, ring: seq<nat>): seq<nat>
    requires |at| == |walks| && forall x :: x in ring ==> x < |walks| && at[x] < |walks[x]|
  {
    seq(|ring|, k requires 0 <= k < |ring| => assert ring[k] in ring; walks[ring[k]][at[ring[k]]])
  }

  lemma PlacedWaits(rest: Sys, s: Sys, jobs: seq<Job>, at: seq<nat>, x: nat, y: nat)
    requires Inv(s) && AllInOrder(s) && Placed(rest, s, jobs, at, x) && Placed(rest, s, jobs, at, y)
    requires Waits(WalksFrom(rest, jobs), at, x, y)
    ensures WaitsFor(s, x, WalksFrom(rest, jobs)[x][at[x]], y)
  {
    hide Inv, WalkOf, ListNow, Results, Passed, WalksFrom, RowsUpTo, InOrder;
    PassedWalk(rest, jobs, at, x);
    PassedWalk(rest, jobs, at, y);
    var u, k, tx := WalksFrom(rest, jobs)[x][at[x]], Passed(rest, jobs, at, y), s.txs[y];
    assert InOrder(tx) && |tx.todo| == |tx.listed| - k;
    CreditedIsHeld(s, y, u);
  }

  lemma RingWaits(rest: Sys, s: Sys, jobs: seq<Job>, at: seq<nat>, ring: seq<nat>, k: nat)
    requires Ring(WalksFrom(rest, jobs), at, ring) && Staged(rest, s, jobs, at, ring, |jobs|) && k < |ring|
    ensures Member(rest, jobs, at, ring, ring[k])
    ensures WaitsFor(s, ring[k], WalksFrom(rest, jobs)[ring[k]][at[ring[k]]], Neighbour(ring, k))
  {
    var x, y := ring[k], Neighbour(ring, k);
    assert Waits(WalksFrom(rest, jobs), at, x, y);
    RingMembers(rest, jobs, at, ring, x);
    RingMembers(rest, jobs, at, ring, y);
    assert Placed(rest, s, jobs, at, x) && Placed(rest, s, jobs, at, y);
    hide Inv, AllInOrder, WalletsHeld, WalksFrom, InPlace, Waits, PrefixesApart, WaitsFor, Ring;
    PlacedWaits(rest, s, jobs, at, x, y);
  }

  /** All in place, the settlements of the ring wait for each other. */
  lemma RingIsCycle(rest: Sys, s: Sys, jobs: seq<Job>, at: seq<nat>, ring: seq<nat>) returns (ws: seq<nat>)
    requires Ring(WalksFrom(rest, jobs), at, ring) && Staged(rest, s, jobs, at, ring, |jobs|)
    ensures WaitCycle(s, ring, ws)
  {
    hide Staged, WalksFrom, Waits, PrefixesApart, WaitsFor, Neighbour;
    forall x | x in ring ensures Member(rest, jobs, at, ring, x) {
      RingMembers(rest, jobs, at, ring, x);
    }
    ws := WaitedFor(WalksFrom(rest, jobs), at, ring);
    forall k | 0 <= k < |ring| ensures WaitsFor(s, ring[k], ws[k], Neighbour(ring, k)) {
      RingWaits(rest, s, jobs, at, ring, k);
    }
  }

  // ---------- the exact condition ----------

  /** Some schedule of these settlements alone, with failures and restarts, ends in a cycle of waits for wallets. */
  ghost predicate CanDeadlock(s: Sys, jobs: seq<Job>) {
    exists turns: seq<Turn>, ts: seq<nat>, ws: seq<nat> {:trigger OnlyThese(turns, jobs), WaitCycle(Schedule(s, turns), ts, ws)} ::
      OnlyThese(turns, jobs) && WaitCycle(Schedule(s, turns), ts, ws)
  }

  lemma DeadlocksAreRings(rest: Sys, jobs: seq<Job>)
    requires Inv(rest) && rest.locks == map[] && rest.txs == map[] && AllApart(jobs) && CanDeadlock(rest, jobs)
    ensures Tangled(WalksFrom(rest, jobs))
  {
    hide Inv, WaitCycle, Schedule, WalksFrom, Positions, OnlyThese, ListNow;
    var turns: seq<Turn>, ts: seq<nat>, ws: seq<nat> :| OnlyThese(turns, jobs) && WaitCycle(Schedule(rest, turns), ts, ws);
    var s := Schedule(rest, turns);
    ScheduleKeepsHeld(rest, turns);
    ScheduleKeepsTracked(rest, rest, turns, jobs);
    CycleIsRing(rest, s, jobs, ts, ws);
  }

  lemma RingsAreReached(rest: Sys, jobs: seq<Job>)
    requires Inv(rest) && rest.locks == map[] && rest.txs == map[] && AllApart(jobs) && Tangled(WalksFrom(rest, jobs))
    ensures CanDeadlock(rest, jobs)
  {
    var at: seq<nat>, ring: seq<nat> :| Ring(WalksFrom(rest, jobs), at, ring);
    assert Staged(rest, rest, jobs, at, ring, 0);
    hide Inv, WaitCycle, Schedule, WalksFrom, Ring, Staged, OnlyThese;
    var turns := StageAll(rest, jobs, at, ring, |jobs|);
    var ws := RingIsCycle(rest, Schedule(rest, turns), jobs, at, ring);
    assert OnlyThese(turns, jobs) && WaitCycle(Schedule(rest, turns), ring, ws);
  }

  function Jobs(c: Catalogue, closes: seq<Close>): seq<Job> {
    seq(|closes|, t requires 0 <= t < |closes| => JobOf(c, closes[t]))
  }

  /** For each closing, the users it pays or refunds, by ascending bet id. */
  function Walks(db: Db, closes: seq<Close>): seq<seq<nat>> {
    seq(|closes|, t requires 0 <= t < |closes| => Walk(db.bank.bets, Verdicts(db.cat, closes[t].e, closes[t].d)))
  }

  lemma WalksAreThese(db: Db, closes: seq<Close>)
    ensures WalksFrom(AtRest(db.bank), Jobs(db.cat, closes)) == Walks(db, closes)
  {
    hide JobOf, Walk, Verdicts, ListNow, WalkOf, Results;
    forall t | 0 <= t < |closes|
      ensures WalksFrom(AtRest(db.bank), Jobs(db.cat, closes))[t] == Walks(db, closes)[t]
    {
      WalkIsThis(db, closes[t]);
    }
  }

  lemma WalkIsThis(db: Db, close: Close)
    ensures var job := JobOf(db.cat, close);
      WalkOf(ListNow(AtRest(db.bank), job), Results(job)) == Walk(db.bank.bets, Verdicts(db.cat, close.e, close.d))
  {
    hide JobOf, Walk, Verdicts, WalkOf, Results;
    JobCoversEvent(db.cat, close);
    WalksAgree(db.bank, Verdicts(db.cat, close.e, close.d), |db.bank.bets|);
    assert db.bank.bets[..|db.bank.bets|] == db.bank.bets;
  }

  lemma JobsAreApart(c: Catalogue, closes: seq<Close>)
    requires forall t, q :: 0 <= t < q < |closes| ==> closes[t].e != closes[q].e
    ensures AllApart(Jobs(c, closes))
  {
    hide JobOf, Apart;
    var jobs := Jobs(c, closes);
    forall t | 0 <= t < |jobs| ensures jobs[t].SettleJob? {
      JobSettles(c, closes[t]);
    }
    forall t, q | 0 <= t < |jobs| && 0 <= q < |jobs| && t != q ensures Apart(jobs[t], jobs[q]) {
      EventsAreApart(c, closes[t], closes[q]);
    }
  }

  lemma JobSettles(c: Catalogue, close: Close)
    ensures JobOf(c, close).SettleJob?
  {
  }

  /**
   * Closings of different events can wait for each other for ever if and only if the lists of wallets they credit are
   * tangled: some of them can each come to a wallet its neighbour in a ring has credited, none crossing another before.
   */
  lemma DeadlockExactlyWhen(db: Db, cfg: Config, closes: seq<Close>)
    requires Runs.Inv(db, cfg) && forall t, q :: 0 <= t < q < |closes| ==> closes[t].e != closes[q].e
    ensures CanDeadlock(AtRest(db.bank), Jobs(db.cat, closes)) <==> Tangled(Walks(db, closes))
  {
    hide BankInv, Inv, CanDeadlock, Tangled, Jobs, AllApart;
    var rest, jobs := AtRest(db.bank), Jobs(db.cat, closes);
    AtRestKeepsInv(db.bank, cfg.signupBonus);
    WalksAreThese(db, closes);
    JobsAreApart(db.cat, closes);
    if CanDeadlock(rest, jobs) {
      DeadlocksAreRings(rest, jobs);
    }
    if Tangled(Walks(db, closes)) {
      RingsAreReached(rest, jobs);
    }
  }
}
