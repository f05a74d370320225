/** The worker iterations: one pass over the listed events, in which one lost statement gives up one event and no other. */
module Workers {
  import opened Sums
  import opened Domain
  import opened Plans
  import opened CatalogueOps
  import OddsSync
  import QuoteEffects
  import Settlement
  import opened Service
  import opened Store
  import AdminServices
  import FeedWorkers

  // ---------- OddsSyncWorker.Run ----------

  const ODDS_BATCH_SIZE := 10

  type Quotes = map<nat, seq<OddsSync.ApiMarket>>

  function QuotesOf(e: nat, quotes: Quotes): Option<seq<OddsSync.ApiMarket>> {
    if e in quotes then Some(quotes[e]) else None
  }

  /** The quotes of every event applied in list order; an event refused half way keeps what was written of it. */
  function QuoteAll(c: Catalogue, evs: seq<nat>, quotes: Quotes): Catalogue {
    if |evs| == 0 then c
    else
      var e := evs[|evs| - 1];
      OddsSync.ApplyEvent(QuoteAll(c, evs[..|evs| - 1], quotes), e, QuotesOf(e, quotes)).cat
  }

  /** One event of a pass: done completely, or given up at the one statement it lost. */
  ghost predicate QuoteTurn(c: Catalogue, e: nat, quotes: Quotes, next: Catalogue, lost: int) {
    || (lost == 0 && next == OddsSync.ApplyEvent(c, e, QuotesOf(e, quotes)).cat)
    || (lost == 1 && QuoteEffects.EventCut(c, e, QuotesOf(e, quotes), next))
  }

  /** A pass over the events, in order, each of which is attempted; it lost this many statements, at most one per event. */
  ghost predicate QuotePass(c: Catalogue, evs: seq<nat>, quotes: Quotes, next: Catalogue, lost: int) {
    if |evs| == 0 then next == c && lost == 0
    else
      exists mid: Catalogue, before: int {:trigger QuotePass(c, evs[..|evs| - 1], quotes, mid, before)} ::
        QuotePass(c, evs[..|evs| - 1], quotes, mid, before) && QuoteTurn(mid, evs[|evs| - 1], quotes, next, lost - before)
  }

  lemma {:induction false} QuotePassLoses(c: Catalogue, evs: seq<nat>, quotes: Quotes, next: Catalogue, lost: int)
    requires QuotePass(c, evs, quotes, next, lost)
    ensures 0 <= lost <= |evs|
  {
    hide QuoteEffects.EventCut, OddsSync.ApplyEvent;
    if |evs| > 0 {
      var mid: Catalogue, before: int :|
        QuotePass(c, evs[..|evs| - 1], quotes, mid, before) && QuoteTurn(mid, evs[|evs| - 1], quotes, next, lost - before);
      QuotePassLoses(c, evs[..|evs| - 1], quotes, mid, before);
    }
  }

  /** A pass that loses nothing is the plain loop. */
  lemma {:induction false} CleanPassIsQuoteAll(c: Catalogue, evs: seq<nat>, quotes: Quotes, next: Catalogue)
    requires QuotePass(c, evs, quotes, next, 0)
    ensures next == QuoteAll(c, evs, quotes)
  {
    hide QuoteEffects.EventCut, OddsSync.ApplyEvent;
    if |evs| > 0 {
      var mid: Catalogue, before: int :|
        QuotePass(c, evs[..|evs| - 1], quotes, mid, before) && QuoteTurn(mid, evs[|evs| - 1], quotes, next, 0 - before);
      QuotePassLoses(c, evs[..|evs| - 1], quotes, mid, before);
      CleanPassIsQuoteAll(c, evs[..|evs| - 1], quotes, mid);
    }
  }

  lemma QuotePassStep(c: Catalogue, evs: seq<nat>, e: nat, quotes: Quotes, mid: Catalogue, before: int, next: Catalogue, lost: int)
    requires QuotePass(c, evs, quotes, mid, before) && QuoteTurn(mid, e, quotes, next, lost - before)
    ensures QuotePass(c, evs + [e], quotes, next, lost)
  {
    hide QuoteTurn;
    assert (evs + [e])[..|evs|] == evs;
  }

  lemma {:induction false} QuotePassConcat(c: Catalogue, a: seq<nat>, b: seq<nat>, quotes: Quotes,
                                           mid: Catalogue, lost: int, next: Catalogue, more: int)
    requires QuotePass(c, a, quotes, mid, lost) && QuotePass(mid, b, quotes, next, more)
    ensures QuotePass(c, a + b, quotes, next, lost + more)
  {
    hide QuoteTurn;
    if |b| == 0 {
      assert a + b == a;
    } else {
      var front, last := b[..|b| - 1], b[|b| - 1];
      var at: Catalogue, before: int :| QuotePass(mid, front, quotes, at, before) && QuoteTurn(at, last, quotes, next, more - before);
      QuotePassConcat(c, a, front, quotes, mid, lost, at, before);
      assert QuoteTurn(at, last, quotes, next, lost + more - (lost + before));
      QuotePassStep(c, a + front, last, quotes, at, lost + before, next, lost + more);
      assert a + front + [last] == a + b;
    }
  }

  method QuoteBatch(db: Database, batch: seq<nat>, quotes: Quotes)
    modifies db`markets, db`outcomes, db`faults, db`sane
    ensures QuotePass(old(db.Cat()), batch, quotes, db.Cat(), old(db.Lost()) - db.Lost())
    ensures old(db.AlwaysSane()) ==> db.AlwaysSane()
  {
    hide OddsSync.ApplyEvent, QuoteEffects.EventCut, Database.AlwaysSane;
    for i := 0 to |batch|
      invariant QuotePass(old(db.Cat()), batch[..i], quotes, db.Cat(), old(db.Lost()) - db.Lost())
      invariant old(db.AlwaysSane()) ==> db.AlwaysSane()
    {
      ghost var mid, before := db.Cat(), old(db.Lost()) - db.Lost();
      var _ := FeedWorkers.ApplyEvent(db, batch[i], QuotesOf(batch[i], quotes));
      QuotePassStep(old(db.Cat()), batch[..i], batch[i], quotes, mid, before, db.Cat(), old(db.Lost()) - db.Lost());
      assert batch[..i] + [batch[i]] == batch[..i + 1];
    }
    assert batch[..|batch|] == batch;
  }

  /** The first n events, without those whose batch of ten got no answer. */
  function Answered(evs: seq<nat>, failed: set<nat>, n: nat): seq<nat>
    requires n <= |evs|
  {
    if n == 0 then []
    else Answered(evs, failed, n - 1) + if (n - 1) / ODDS_BATCH_SIZE in failed then [] else [evs[n - 1]]
  }

  /** Within one batch either every event is answered or none. */
  lemma {:induction false} AnsweredBatch(evs: seq<nat>, failed: set<nat>, k: nat, n: nat)
    requires k * ODDS_BATCH_SIZE <= n <= |evs| && n <= (k + 1) * ODDS_BATCH_SIZE
    ensures Answered(evs, failed, n)
         == Answered(evs, failed, k * ODDS_BATCH_SIZE) + if k in failed then [] else evs[k * ODDS_BATCH_SIZE..n]
  {
    if n > k * ODDS_BATCH_SIZE {
      AnsweredBatch(evs, failed, k, n - 1);
      assert (n - 1) / ODDS_BATCH_SIZE == k;
      assert evs[k * ODDS_BATCH_SIZE..n] == evs[k * ODDS_BATCH_SIZE..n - 1] + [evs[n - 1]];
    }
  }

  /** Where batch k of a chunked list starts and ends. */
  lemma {:induction false} BatchBounds(batches: seq<seq<nat>>, k: nat)
    requires k <= |batches|
    requires forall i :: 0 <= i < |batches| - 1 ==> |batches[i]| == ODDS_BATCH_SIZE
    ensures |OddsSync.Flat(batches[..k])| <= |OddsSync.Flat(batches)|
    ensures k < |batches| ==> |OddsSync.Flat(batches[..k])| == k * ODDS_BATCH_SIZE
    ensures k < |batches| ==> OddsSync.Flat(batches[..k + 1]) == OddsSync.Flat(batches[..k]) + batches[k]
    ensures OddsSync.Flat(batches[..k]) == OddsSync.Flat(batches)[..|OddsSync.Flat(batches[..k])|]
    decreases |batches| - k
  {
    FlatLength(batches, k);
    if k < |batches| {
      assert batches[..k + 1][..k] == batches[..k];
      BatchBounds(batches, k + 1);
      var n := |OddsSync.Flat(batches[..k])|;
      assert OddsSync.Flat(batches)[..n] == OddsSync.Flat(batches)[..|OddsSync.Flat(batches[..k + 1])|][..n];
    } else {
      assert batches[..k] == batches;
    }
  }

  lemma {:induction false} FlatLength(batches: seq<seq<nat>>, k: nat)
    requires k <= |batches|
    requires forall i :: 0 <= i < |batches| - 1 ==> |batches[i]| == ODDS_BATCH_SIZE
    ensures k < |batches| ==> |OddsSync.Flat(batches[..k])| == k * ODDS_BATCH_SIZE
  {
    if 0 < k < |batches| {
      FlatLength(batches, k - 1);
      assert batches[..k][..k - 1] == batches[..k - 1];
    }
  }

  /**
   * Fetching quotes in batches of ten is a pass over the events of the answered batches, in list order: an unanswered batch
   * is skipped alone, and a lost statement gives up one event alone. Every write keeps the catalogue sane.
   */
  method SyncOdds(db: Database, evs: seq<nat>, failed: set<nat>, quotes: Quotes)
    modifies db`markets, db`outcomes, db`faults, db`sane
    ensures QuotePass(old(db.Cat()), Answered(evs, failed, |evs|), quotes, db.Cat(), old(db.Lost()) - db.Lost())
    ensures old(db.AlwaysSane()) ==> db.AlwaysSane()
  {
    hide QuotePass, Database.AlwaysSane, Answered, OddsSync.Flat;
    var batches := OddsSync.ChunkEvents(evs, ODDS_BATCH_SIZE);
    ghost var n := 0;
    EmptyPass(db.Cat(), evs, failed, quotes, batches);
    for k := 0 to |batches|
      invariant n == |OddsSync.Flat(batches[..k])| <= |evs|
      invariant QuotePass(old(db.Cat()), Answered(evs, failed, n), quotes, db.Cat(), old(db.Lost()) - db.Lost())
      invariant old(db.AlwaysSane()) ==> db.AlwaysSane()
    {
      BatchBounds(batches, k);
      BatchBounds(batches, k + 1);
      ghost var end := n + |batches[k]|;
      BatchIsSlice(evs, OddsSync.Flat(batches[..k]), batches[k]);
      AnsweredBatch(evs, failed, k, end);
      if k !in failed {
        ghost var mid, lost := db.Cat(), old(db.Lost()) - db.Lost();
        QuoteBatch(db, batches[k], quotes);
        QuotePassConcat(old(db.Cat()), Answered(evs, failed, n), batches[k], quotes, mid, lost, db.Cat(), old(db.Lost()) - db.Lost() - lost);
      } else {
        assert Answered(evs, failed, n) + [] == Answered(evs, failed, n);
      }
      n := end;
    }
    assert batches[..|batches|] == batches;
  }

  lemma EmptyPass(c: Catalogue, evs: seq<nat>, failed: set<nat>, quotes: Quotes, batches: seq<seq<nat>>)
    ensures Answered(evs, failed, 0) == [] && QuotePass(c, [], quotes, c, 0) && OddsSync.Flat(batches[..0]) == []
  {
  }

  lemma BatchIsSlice(evs: seq<nat>, front: seq<nat>, batch: seq<nat>)
    requires |front + batch| <= |evs| && front + batch == evs[..|front + batch|]
    ensures batch == evs[|front|..|front| + |batch|]
  {
    assert batch == (front + batch)[|front|..];
  }

  // ---------- EventSyncWorker.Run ----------

  function SyncAll(c: Catalogue, apis: seq<ApiEvent>): Catalogue {
    if |apis| == 0 then c else CatalogueOps.SyncEvent(SyncAll(c, apis[..|apis| - 1]), apis[|apis| - 1])
  }

  /** The events of the sports whose request succeeded, sport by sport. */
  function Received(feeds: seq<Option<seq<ApiEvent>>>): seq<ApiEvent> {
    if |feeds| == 0 then []
    else
      var last := feeds[|feeds| - 1];
      Received(feeds[..|feeds| - 1]) + if last.Some? then last.value else []
  }

  ghost predicate SyncTurn(c: Catalogue, api: ApiEvent, next: Catalogue, lost: int) {
    (lost == 0 && next == CatalogueOps.SyncEvent(c, api)) || (lost == 1 && FeedWorkers.SyncCut(c, api, next))
  }

  /** A pass over the received events, in order, each of which is attempted; at most one statement is lost per event. */
  ghost predicate SyncPass(c: Catalogue, apis: seq<ApiEvent>, next: Catalogue, lost: int) {
    if |apis| == 0 then next == c && lost == 0
    else
      exists mid: Catalogue, before: int {:trigger SyncPass(c, apis[..|apis| - 1], mid, before)} ::
        SyncPass(c, apis[..|apis| - 1], mid, before) && SyncTurn(mid, apis[|apis| - 1], next, lost - before)
  }

  lemma {:induction false} SyncPassLoses(c: Catalogue, apis: seq<ApiEvent>, next: Catalogue, lost: int)
    requires SyncPass(c, apis, next, lost)
    ensures 0 <= lost <= |apis|
  {
    hide FeedWorkers.SyncCut, CatalogueOps.SyncEvent;
    if |apis| > 0 {
      var mid: Catalogue, before: int :|
        SyncPass(c, apis[..|apis| - 1], mid, before) && SyncTurn(mid, apis[|apis| - 1], next, lost - before);
      SyncPassLoses(c, apis[..|apis| - 1], mid, before);
    }
  }

  /** A pass that loses nothing is the plain loop. */
  lemma {:induction false} CleanPassIsSyncAll(c: Catalogue, apis: seq<ApiEvent>, next: Catalogue)
    requires SyncPass(c, apis, next, 0)
    ensures next == SyncAll(c, apis)
  {
    hide FeedWorkers.SyncCut, CatalogueOps.SyncEvent;
    if |apis| > 0 {
      var mid: Catalogue, before: int :|
        SyncPass(c, apis[..|apis| - 1], mid, before) && SyncTurn(mid, apis[|apis| - 1], next, 0 - before);
      SyncPassLoses(c, apis[..|apis| - 1], mid, before);
      CleanPassIsSyncAll(c, apis[..|apis| - 1], mid);
    }
  }

  lemma SyncPassStep(c: Catalogue, apis: seq<ApiEvent>, api: ApiEvent, mid: Catalogue, before: int, next: Catalogue, lost: int)
    requires SyncPass(c, apis, mid, before) && SyncTurn(mid, api, next, lost - before)
    ensures SyncPass(c, apis + [api], next, lost)
  {
    hide SyncTurn;
    assert (apis + [api])[..|apis|] == apis;
  }

  lemma {:induction false} SyncPassConcat(c: Catalogue, a: seq<ApiEvent>, b: seq<ApiEvent>, mid: Catalogue, lost: int,
                                          next: Catalogue, more: int)
    requires SyncPass(c, a, mid, lost) && SyncPass(mid, b, next, more)
    ensures SyncPass(c, a + b, next, lost + more)
  {
    hide SyncTurn;
    if |b| == 0 {
      assert a + b == a;
    } else {
      var front, last := b[..|b| - 1], b[|b| - 1];
      var at: Catalogue, before: int :| SyncPass(mid, front, at, before) && SyncTurn(at, last, next, more - before);
      SyncPassConcat(c, a, front, mid, lost, at, before);
      assert SyncTurn(at, last, next, lost + more - (lost + before));
      SyncPassStep(c, a + front, last, at, lost + before, next, lost + more);
      assert a + front + [last] == a + b;
    }
  }

  method SyncSport(db: Database, apis: seq<ApiEvent>)
    modifies db`events, db`markets, db`faults, db`sane
    ensures SyncPass(old(db.Cat()), apis, db.Cat(), old(db.Lost()) - db.Lost())
    ensures old(db.AlwaysSane()) ==> db.AlwaysSane()
  {
    hide CatalogueOps.SyncEvent, FeedWorkers.SyncCut, Database.AlwaysSane;
    for i := 0 to |apis|
      invariant SyncPass(old(db.Cat()), apis[..i], db.Cat(), old(db.Lost()) - db.Lost())
      invariant old(db.AlwaysSane()) ==> db.AlwaysSane()
    {
      ghost var mid, before := db.Cat(), old(db.Lost()) - db.Lost();
      var _, _ := FeedWorkers.SyncEvent(db, apis[i]);
      SyncPassStep(old(db.Cat()), apis[..i], apis[i], mid, before, db.Cat(), old(db.Lost()) - db.Lost());
      assert apis[..i] + [apis[i]] == apis[..i + 1];
    }
    assert apis[..|apis|] == apis;
  }

  /** Every event of every answered sport is attempted, in order; a lost statement gives up one event alone. */
  method SyncEvents(db: Database, feeds: seq<Option<seq<ApiEvent>>>)
    modifies db`events, db`markets, db`faults, db`sane
    ensures SyncPass(old(db.Cat()), Received(feeds), db.Cat(), old(db.Lost()) - db.Lost())
    ensures old(db.AlwaysSane()) ==> db.AlwaysSane()
  {
    hide SyncPass, Received, Database.AlwaysSane;
    NothingReceived(db.Cat(), feeds);
    for k := 0 to |feeds|
      invariant SyncPass(old(db.Cat()), Received(feeds[..k]), db.Cat(), old(db.Lost()) - db.Lost())
      invariant old(db.AlwaysSane()) ==> db.AlwaysSane()
    {
      ReceivedStep(feeds, k);
      if feeds[k].Some? {
        ghost var mid, lost := db.Cat(), old(db.Lost()) - db.Lost();
        SyncSport(db, feeds[k].value);
        SyncPassConcat(old(db.Cat()), Received(feeds[..k]), feeds[k].value, mid, lost, db.Cat(), old(db.Lost()) - db.Lost() - lost);
      }
    }
    assert feeds[..|feeds|] == feeds;
  }

  lemma NothingReceived(c: Catalogue, feeds: seq<Option<seq<ApiEvent>>>)
    ensures Received(feeds[..0]) == [] && SyncPass(c, [], c, 0)
  {
  }

  lemma ReceivedStep(feeds: seq<Option<seq<ApiEvent>>>, k: nat)
    requires k < |feeds|
    ensures Received(feeds[..k + 1]) == if feeds[k].Some? then Received(feeds[..k]) + feeds[k].value else Received(feeds[..k])
  {
    assert feeds[..k + 1][..k] == feeds[..k];
    assert Received(feeds[..k]) + [] == Received(feeds[..k]);
  }

  // ---------- SettlementWorker.Run ----------

  /** ListForSettlement: started feed events that are not final. */
  function Awaiting(now: int): Event -> bool {
    (ev: Event) => ev.source == SourceOddsAPI && !Terminal(ev.status) && ev.startsAt < now
  }

  /** The atomic calls a pass over the listed events amounts to, in listing order. */
  function PassOps(now: int, listing: seq<nat>, answers: map<nat, (EventStatus, Scores)>): seq<Op> {
    if |listing| == 0 then []
    else
      var e := listing[|listing| - 1];
      PassOps(now, listing[..|listing| - 1], answers)
      + if e in answers then [FeedResult(now, e, answers[e].0, answers[e].1)] else []
  }

  /** A settlement leaves every other event's row alone. */
  lemma SettleTouchesOneEvent(db: Db, close: Close)
    requires Settlement.Settle(db, close.e, close.final, close.d, close.scores).Ok?
    ensures OtherEventsStay(db, Settlement.Settle(db, close.e, close.final, close.d, close.scores).value, close.e)
  {
    hide Settlement.PlanFits, PlanOf;
  }

  predicate OtherEventsStay(db: Db, next: Db, e: nat) {
    |next.cat.events| == |db.cat.events|
    && forall i :: 0 <= i < |db.cat.events| && i != e ==> next.cat.events[i] == db.cat.events[i]
  }

  lemma FeedResultIsAccepted(db: Db, cfg: Config, op: Op)
    requires op.FeedResult?
    ensures Step(db, cfg, op) == AdminServices.Accepted(db, ResultGuard(db.cat, op.now, op.e, op.status, op.scores))
    ensures !Terminal(op.status) ==> Step(db, cfg, op).Err? && Exec(db, cfg, op) == db
    ensures OtherEventsStay(db, Exec(db, cfg, op), op.e)
  {
    hide Settlement.Settle;
    var guard := ResultGuard(db.cat, op.now, op.e, op.status, op.scores);
    if guard.Ok? && Settlement.Settle(db, guard.value.e, guard.value.final, guard.value.d, guard.value.scores).Ok? {
      SettleTouchesOneEvent(db, guard.value);
    }
  }

  /** processEvent for one listed event: its atomic call, unless a statement of it is lost. */
  method SettleListed(db: Database, now: int, e: nat, status: EventStatus, scores: Scores, ghost cfg: Config)
    returns (counted: bool, ghost lost: bool)
    requires e < |db.events| && Awaiting(now)(db.events[e])
    modifies db
    ensures db.Snapshot() == if lost then old(db.Snapshot()) else Exec(old(db.Snapshot()), cfg, FeedResult(now, e, status, scores))
    ensures counted <==> !lost && Step(old(db.Snapshot()), cfg, FeedResult(now, e, status, scores)).Ok?
    ensures OtherEventsStay(old(db.Snapshot()), db.Snapshot(), e)
    ensures db.Lost() == old(db.Lost()) - if lost then 1 else 0
    ensures old(db.AlwaysSane()) ==> db.AlwaysSane()
  {
    hide Database.AlwaysSane, Step, AdminServices.Accepted;
    ghost var was := db.Snapshot();
    FeedResultIsAccepted(was, cfg, FeedResult(now, e, status, scores));
    var err := AdminServices.ProcessEvent(db, now, e, status, scores);
    counted := err.None? && Terminal(status);
    lost := err == Some(ErrConnection);
  }

  /** a is b with some calls left out. */
  predicate IsSubsequence(a: seq<Op>, b: seq<Op>) {
    if |b| == 0 then a == []
    else
      IsSubsequence(a, b[..|b| - 1])
      || (|a| > 0 && a[|a| - 1] == b[|b| - 1] && IsSubsequence(a[..|a| - 1], b[..|b| - 1]))
  }

  /** How many calls of the run are accepted. */
  function AcceptedIn(db: Db, cfg: Config, ops: seq<Op>): nat {
    if |ops| == 0 then 0
    else
      var front := ops[..|ops| - 1];
      AcceptedIn(db, cfg, front) + if Step(Run(db, cfg, front), cfg, ops[|ops| - 1]).Ok? then 1 else 0
  }

  lemma SubsequenceGrows(a: seq<Op>, b: seq<Op>, op: Op)
    requires IsSubsequence(a, b)
    ensures IsSubsequence(a, b + [op]) && IsSubsequence(a + [op], b + [op])
  {
    assert (b + [op])[..|b|] == b && (a + [op])[..|a|] == a;
  }

  lemma AcceptedGrows(db: Db, cfg: Config, ops: seq<Op>, op: Op)
    ensures AcceptedIn(db, cfg, ops + [op]) == AcceptedIn(db, cfg, ops) + if Step(Run(db, cfg, ops), cfg, op).Ok? then 1 else 0
  {
    hide Step, Run;
    assert (ops + [op])[..|ops|] == ops;
  }

  /** Where a pass stands: the database, the calls that went through, the accepted ones, and how many were lost. */
  ghost predicate Passed(before: Db, cfg: Config, ops: seq<Op>, now: Db, settled: int, pass: seq<Op>, lost: int) {
    && now == Run(before, cfg, ops) && settled == AcceptedIn(before, cfg, ops)
    && IsSubsequence(ops, pass) && |pass| - |ops| == lost
  }

  lemma PassedStep(before: Db, cfg: Config, ops: seq<Op>, was: Db, settled: int, pass: seq<Op>, lost: int,
                   op: Op, now: Db, counted: bool, gone: bool)
    requires Passed(before, cfg, ops, was, settled, pass, lost)
    requires now == if gone then was else Exec(was, cfg, op)
    requires counted <==> !gone && Step(was, cfg, op).Ok?
    ensures Passed(before, cfg, if gone then ops else ops + [op], now, settled + if counted then 1 else 0,
                   pass + [op], lost + if gone then 1 else 0)
  {
    hide Step, Run, Exec, AcceptedIn, IsSubsequence;
    RunSnoc(before, cfg, ops, op);
    AcceptedGrows(before, cfg, ops, op);
    SubsequenceGrows(ops, pass, op);
  }

  lemma PassedNothing(before: Db, cfg: Config)
    ensures Passed(before, cfg, [], before, 0, [], 0)
  {
  }

  /**
   * The pass is a run of the atomic feed results of the listed events that have an answer, in listing order, with one call
   * left out per statement lost while settling. settled counts the accepted ones. Losing the listing itself ends the pass.
   */
  method SettleFinished(db: Database, now: int, answers: map<nat, (EventStatus, Scores)>, ghost cfg: Config)
    returns (settled: nat, ghost ops: seq<Op>)
    modifies db
    ensures db.Snapshot() == Run(old(db.Snapshot()), cfg, ops) && settled == AcceptedIn(old(db.Snapshot()), cfg, ops)
    ensures IsSubsequence(ops, PassOps(now, Where(old(db.events), Awaiting(now)), answers))
    ensures if |old(db.faults)| > 0 && old(db.faults)[0] then ops == [] && db.Lost() == old(db.Lost()) - 1
            else |PassOps(now, Where(old(db.events), Awaiting(now)), answers)| - |ops| == old(db.Lost()) - db.Lost()
    ensures old(db.AlwaysSane()) ==> db.AlwaysSane()
  {
    hide Database.AlwaysSane, Step, Run, Exec, PassOps, Terminal, OtherEventsStay, IsSubsequence, AcceptedIn;
    ghost var before := db.Snapshot();
    settled, ops := 0, [];
    PassedNothing(before, cfg);
    NothingIsSubsequence(PassOps(now, Where(db.events, Awaiting(now)), answers));
    var err := db.Send();
    if err.Some? {
      return;
    }
    var listing := Where(db.events, Awaiting(now));
    assert StillListed(db.events, listing, 0, now);
    PassNothing(now, answers);
    assert listing[..0] == [];
    settled, ops := SettleAll(db, now, listing, answers, cfg);
  }

  method SettleAll(db: Database, now: int, listing: seq<nat>, answers: map<nat, (EventStatus, Scores)>, ghost cfg: Config)
    returns (settled: nat, ghost ops: seq<Op>)
    requires StillListed(db.events, listing, 0, now)
    modifies db
    ensures Passed(old(db.Snapshot()), cfg, ops, db.Snapshot(), settled, PassOps(now, listing, answers), old(db.Lost()) - db.Lost())
    ensures old(db.AlwaysSane()) ==> db.AlwaysSane()
  {
    hide Database.AlwaysSane, Step, Exec, PassOps, OtherEventsStay, StillListed, Awaiting, Passed;
    settled, ops := 0, [];
    PassedNothing(db.Snapshot(), cfg);
    PassNothing(now, answers);
    assert listing[..0] == [];
    for i := 0 to |listing|
      invariant StillListed(db.events, listing, i, now)
      invariant Passed(old(db.Snapshot()), cfg, ops, db.Snapshot(), settled, PassOps(now, listing[..i], answers), old(db.Lost()) - db.Lost())
      invariant old(db.AlwaysSane()) ==> db.AlwaysSane()
    {
      var e := listing[i];
      ghost var was, lost := db.Snapshot(), old(db.Lost()) - db.Lost();
      HeadStillListed(db.events, listing, i, now);
      PassStep(now, listing, i, answers);
      if e in answers {
        ghost var op := FeedResult(now, e, answers[e].0, answers[e].1);
        var counted, gone := SettleListed(db, now, e, answers[e].0, answers[e].1, cfg);
        PassedStep(old(db.Snapshot()), cfg, ops, was, settled, PassOps(now, listing[..i], answers), lost, op, db.Snapshot(), counted, gone);
        if !gone {
          ops := ops + [op];
        }
        if counted {
          settled := settled + 1;
        }
      } else {
        assert PassOps(now, listing[..i], answers) + [] == PassOps(now, listing[..i], answers);
      }
      OthersStillListed(was, db.Snapshot(), listing, i, now);
    }
    assert listing[..|listing|] == listing;
  }

  lemma {:induction false} NothingIsSubsequence(b: seq<Op>)
    ensures IsSubsequence([], b)
  {
    if |b| > 0 {
      NothingIsSubsequence(b[..|b| - 1]);
    }
  }

  /** The events still to come are as they were listed. */
  ghost predicate StillListed(events: seq<Event>, listing: seq<nat>, i: nat, now: int) {
    && (forall j :: i <= j < |listing| ==> listing[j] < |events| && Awaiting(now)(events[listing[j]]))
    && (forall j, k :: 0 <= j < k < |listing| ==> listing[j] < listing[k])
  }

  lemma HeadStillListed(events: seq<Event>, listing: seq<nat>, i: nat, now: int)
    requires i < |listing| && StillListed(events, listing, i, now)
    ensures listing[i] < |events| && Awaiting(now)(events[listing[i]])
  {
  }

  lemma OthersStillListed(db: Db, next: Db, listing: seq<nat>, i: nat, now: int)
    requires i < |listing| && StillListed(db.cat.events, listing, i, now)
    requires next == db || OtherEventsStay(db, next, listing[i])
    ensures StillListed(next.cat.events, listing, i + 1, now)
  {
  }

  lemma PassNothing(now: int, answers: map<nat, (EventStatus, Scores)>)
    ensures PassOps(now, [], answers) == []
  {
  }

  lemma PassStep(now: int, listing: seq<nat>, i: nat, answers: map<nat, (EventStatus, Scores)>)
    requires i < |listing|
    ensures PassOps(now, listing[..i + 1], answers)
         == PassOps(now, listing[..i], answers)
            + if listing[i] in answers then [FeedResult(now, listing[i], answers[listing[i]].0, answers[listing[i]].1)] else []
  {
    assert listing[..i + 1][..i] == listing[..i];
  }

  // ---------- which events a pass attempts ----------

  /** A batch of ten is skipped whole; every other listed event is attempted. */
  lemma {:induction false} AnsweredExactlyWhen(evs: seq<nat>, failed: set<nat>, n: nat, e: nat)
    requires n <= |evs|
    ensures e in Answered(evs, failed, n) <==> exists i :: 0 <= i < n && evs[i] == e && i / 10 !in failed
  {
    if n > 0 {
      AnsweredExactlyWhen(evs, failed, n - 1, e);
      assert (n - 1) / 10 !in failed && evs[n - 1] == e ==> evs[n - 1] in Answered(evs, failed, n);
    }
  }

  /** Every event of every sport that answered is received. */
  lemma {:induction false} ReceivedExactlyWhen(feeds: seq<Option<seq<ApiEvent>>>, api: ApiEvent)
    ensures api in Received(feeds) <==> exists k :: 0 <= k < |feeds| && feeds[k].Some? && api in feeds[k].value
  {
    if |feeds| > 0 {
      var front, last := feeds[..|feeds| - 1], feeds[|feeds| - 1];
      ReceivedExactlyWhen(front, api);
      assert feeds == front + [last];
    }
  }

  /** The settlement pass asks for exactly the listed events with an answer, each with the status and score it was given. */
  lemma {:induction false} PassOpsExactlyWhen(now: int, listing: seq<nat>, answers: map<nat, (EventStatus, Scores)>, op: Op)
    ensures op in PassOps(now, listing, answers)
       <==> op.FeedResult? && op.now == now && op.e in listing && op.e in answers && (op.status, op.scores) == answers[op.e]
  {
    if |listing| > 0 {
      var front, last := listing[..|listing| - 1], listing[|listing| - 1];
      PassOpsExactlyWhen(now, front, answers, op);
      assert listing == front + [last];
    }
  }
}
