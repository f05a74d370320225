/** Two settlements: they can wait for each other exactly when their events differ and their walks cross. */
module TwoClosings {
  import opened Domain
  import opened Ledger
  import opened Settlement
  import opened ReadCommitted
  import opened Interleaving
  import opened Deadlock
  import opened Service
  import opened EventJobs
  import opened Crossing
  import opened Tangles
  import Runs

  /** Each walk comes to a wallet the other has passed, and before that they share none. */
  ghost predicate Crosses(a: seq<nat>, b: seq<nat>) {
    exists i, j :: 0 <= i < |a| && 0 <= j < |b| && CrossAt(a, i, b, j)
  }

  predicate CrossAt(a: seq<nat>, i: nat, b: seq<nat>, j: nat)
    requires i < |a| && j < |b|
  {
    a[i] in b[..j] && b[j] in a[..i] && forall u :: u in a[..i] ==> u !in b[..j]
  }

  lemma RingOfTwoCrosses(a: seq<nat>, b: seq<nat>, at: seq<nat>, ring: seq<nat>)
    requires Ring([a, b], at, ring)
    ensures Crosses(a, b)
  {
    var next := After(|ring|, 0);
    RingWaitsAt([a, b], at, ring, 0);
    RingWaitsAt([a, b], at, ring, next);
    assert Neighbour(ring, 0) == ring[next];
    hide Ring, Waits, PrefixesApart, Neighbour;
    TwoWait([a, b], at, ring[0], ring[next], Neighbour(ring, next));
    TwoCross(a, b, at);
  }

  lemma RingWaitsAt(walks: seq<seq<nat>>, at: seq<nat>, ring: seq<nat>, k: nat)
    requires Ring(walks, at, ring) && k < |ring|
    ensures |at| == |walks| && Waits(walks, at, ring[k], Neighbour(ring, k))
    ensures ring[k] != Neighbour(ring, k) ==> PrefixesApart(walks, at, ring[k], Neighbour(ring, k))
  {
    hide Waits, PrefixesApart;
  }

  lemma TwoWait(walks: seq<seq<nat>>, at: seq<nat>, x: nat, y: nat, z: nat)
    requires |at| == |walks| == 2 && Waits(walks, at, x, y) && Waits(walks, at, y, z)
    requires x != y ==> PrefixesApart(walks, at, x, y)
    ensures Waits(walks, at, 0, 1) && Waits(walks, at, 1, 0) && PrefixesApart(walks, at, 0, 1)
  {
  }

  lemma TwoCross(a: seq<nat>, b: seq<nat>, at: seq<nat>)
    requires |at| == 2 && Waits([a, b], at, 0, 1) && Waits([a, b], at, 1, 0) && PrefixesApart([a, b], at, 0, 1)
    ensures Crosses(a, b)
  {
    assert [a, b][0] == a && [a, b][1] == b;
    assert CrossAt(a, at[0], b, at[1]);
  }

  lemma CrossWaits(a: seq<nat>, i: nat, b: seq<nat>, j: nat)
    requires i < |a| && j < |b| && CrossAt(a, i, b, j)
    ensures Waits([a, b], [i, j], 0, 1) && Waits([a, b], [i, j], 1, 0)
    ensures PrefixesApart([a, b], [i, j], 0, 1) && PrefixesApart([a, b], [i, j], 1, 0)
  {
    assert [a, b][0] == a && [a, b][1] == b;
  }

  lemma RingOfTwo(walks: seq<seq<nat>>, at: seq<nat>)
    requires |walks| == |at| == 2 && Waits(walks, at, 0, 1) && Waits(walks, at, 1, 0)
    requires PrefixesApart(walks, at, 0, 1) && PrefixesApart(walks, at, 1, 0)
    ensures Ring(walks, at, [0, 1])
  {
    hide Waits, PrefixesApart;
    var ring := [0, 1];
    assert Neighbour(ring, 0) == 1 && Neighbour(ring, 1) == 0;
    hide Neighbour;
    forall k | 0 <= k < |ring| ensures Waits(walks, at, ring[k], Neighbour(ring, k)) {
      assert k == 0 || k == 1;
    }
  }

  lemma CrossingIsRing(a: seq<nat>, b: seq<nat>)
    requires Crosses(a, b)
    ensures Tangled([a, b])
  {
    var i, j :| 0 <= i < |a| && 0 <= j < |b| && CrossAt(a, i, b, j);
    hide CrossAt, Waits, PrefixesApart, Ring;
    CrossWaits(a, i, b, j);
    RingOfTwo([a, b], [i, j]);
  }

  // ---------- two settlements of one event ----------

  /** Two open settlements with an outcome in common have not both listed their bets. */
  lemma SharedOutcomeExcludes(s: Sys, t: nat, q: nat, o: nat)
    requires Inv(s) && t in s.txs && q in s.txs && t != q && o in Results(s.txs[t].job) && o in Results(s.txs[q].job)
    ensures !(HasListed(s.txs[t]) && HasListed(s.txs[q]))
  {
    hide Books, Funds, RowsFit, PcFits, ResultsIn;
    assert TxInv(s, t, s.txs[t]) && TxInv(s, q, s.txs[q]);
  }

  lemma {:induction false} JobsAreThese(s: Sys, turns: seq<Turn>, jobs: seq<Job>)
    requires OnlyThese(turns, jobs) && forall t: nat :: t in s.txs ==> t < |jobs| && s.txs[t].job == jobs[t]
    ensures forall t: nat :: t in Schedule(s, turns).txs ==> t < |jobs| && Schedule(s, turns).txs[t].job == jobs[t]
    decreases |turns|
  {
    if |turns| > 0 {
      var next := Next(s, turns[0]);
      forall t: nat | t in next.txs ensures t < |jobs| && next.txs[t].job == jobs[t] {
        if t in s.txs || turns[0] != Start(t, next.txs[t].job) {
          NextKeepsJob(s, turns[0], t);
        }
      }
      hide Next;
      JobsAreThese(next, turns[1..], jobs);
    }
  }

  /** A settlement that another one waits for, and that waits itself, has a bet to pay on an outcome of its plan. */
  lemma WaitingHasBet(s: Sys, t: nat, u: nat, q: nat)
    requires WaitsFor(s, t, u, q) && s.txs[t].pc.Paying? && s.txs[t].job.SettleJob?
    ensures HasListed(s.txs[t]) && exists o :: o in Results(s.txs[t].job)
  {
    hide ResultsIn;
    assert s.txs[t].todo[0].bet.outcomeId in Results(s.txs[t].job);
  }

  lemma OneEventNeverDeadlocks(rest: Sys, a: Job, b: Job)
    requires Inv(rest) && rest.locks == map[] && rest.txs == map[]
    requires Results(a).Keys == Results(b).Keys
    ensures !CanDeadlock(rest, [a, b])
  {
    hide Inv, WaitCycle, Schedule, OnlyThese, Results;
    var jobs := [a, b];
    if CanDeadlock(rest, jobs) {
      var turns: seq<Turn>, ts: seq<nat>, ws: seq<nat> :| OnlyThese(turns, jobs) && WaitCycle(Schedule(rest, turns), ts, ws);
      var s := Schedule(rest, turns);
      ScheduleKeepsHeld(rest, turns);
      JobsAreThese(rest, turns, jobs);
      CycleHasMembers(s, ts, ws);
      MemberIsPaying(s, ts, ws, 0);
      MemberIsPaying(s, ts, ws, After(|ts|, 0));
      var x, y := ts[0], Neighbour(ts, 0);
      WaitingHasBet(s, x, ws[0], y);
      WaitingHasBet(s, y, ws[After(|ts|, 0)], Neighbour(ts, After(|ts|, 0)));
      var o :| o in Results(s.txs[x].job);
      assert x != y && s.txs[x].job in jobs && s.txs[y].job in jobs;
      SharedOutcomeExcludes(s, x, y, o);
      assert false;
    }
  }

  lemma CycleHasMembers(s: Sys, ts: seq<nat>, ws: seq<nat>)
    requires WaitCycle(s, ts, ws)
    ensures |ts| == |ws| > 0 && ts[0] in s.txs && Neighbour(ts, 0) in s.txs && ts[0] != Neighbour(ts, 0)
  {
    CycleWaits(s, ts, ws, 0);
    CycleWaits(s, ts, ws, After(|ts|, 0));
    hide WaitCycle;
  }

  lemma TwoJobs(db: Db, x: Close, y: Close)
    ensures Jobs(db.cat, [x, y]) == [JobOf(db.cat, x), JobOf(db.cat, y)]
    ensures Walks(db, [x, y])
         == [Walk(db.bank.bets, Verdicts(db.cat, x.e, x.d)), Walk(db.bank.bets, Verdicts(db.cat, y.e, y.d))]
  {
    hide JobOf, Walk, Verdicts;
  }

  /**
   * Two closings of a reachable database can wait for each other for ever if and only if they close different events and
   * the lists of wallets they credit, each by ascending bet id, cross.
   */
  lemma TwoDeadlockExactlyWhen(db: Db, cfg: Config, x: Close, y: Close)
    requires Runs.Inv(db, cfg)
    ensures CanDeadlock(AtRest(db.bank), [JobOf(db.cat, x), JobOf(db.cat, y)])
       <==> x.e != y.e && Crosses(Walk(db.bank.bets, Verdicts(db.cat, x.e, x.d)), Walk(db.bank.bets, Verdicts(db.cat, y.e, y.d)))
  {
    TwoJobs(db, x, y);
    hide BankInv, CanDeadlock, Ring, JobOf, Walk, Verdicts, Crosses, Inv, Results;
    var a, b := Walk(db.bank.bets, Verdicts(db.cat, x.e, x.d)), Walk(db.bank.bets, Verdicts(db.cat, y.e, y.d));
    if x.e == y.e {
      AtRestKeepsInv(db.bank, cfg.signupBonus);
      JobCoversEvent(db.cat, x);
      JobCoversEvent(db.cat, y);
      SameKeys(db.cat, x.e, x.d, y.d);
      OneEventNeverDeadlocks(AtRest(db.bank), JobOf(db.cat, x), JobOf(db.cat, y));
    } else {
      DeadlockExactlyWhen(db, cfg, [x, y]);
      if Tangled([a, b]) {
        var at: seq<nat>, ring: seq<nat> :| Ring([a, b], at, ring);
        RingOfTwoCrosses(a, b, at, ring);
      }
      if Crosses(a, b) {
        CrossingIsRing(a, b);
      }
    }
  }
}
