/** StatsService: the in-memory page cache of the leaderboard, under concurrent requests. */
module LeaderboardCache {
  import opened Domain
  import opened Stats

  datatype Period = PeriodWeek | PeriodMonth | PeriodAll
  datatype Metric = MetricProfit | MetricROI
  datatype Key = Key(period: Period, metric: Metric, page: int)
  datatype Entry = Entry(rows: seq<Row>, createdAt: int)

  const TTL := 60_000_000_000 // 60 seconds, in nanoseconds

  /** A cached page not older than TTL. */
  function Hit(cache: map<Key, Entry>, key: Key, now: int): Option<seq<Row>> {
    if key in cache && now - cache[key].createdAt <= TTL then Some(cache[key].rows) else None
  }

  // ---------- interleaved requests ----------

  /** One answered repository call; storedAt is the moment its rows went into the cache. */
  datatype Call = Call(key: Key, result: Try<seq<Row>>, storedAt: Option<int>)

  /** A request between its cache miss and its answer. */
  datatype Phase = Calling(key: Key) | Storing(key: Key, rows: seq<Row>, call: nat)

  datatype Answer = Answer(key: Key, result: Try<seq<Row>>, at: int)

  /** The shared cache, the requests under way, and the history of repository calls and answers. */
  datatype State = State(cache: map<Key, Entry>, requests: map<nat, Phase>, calls: seq<Call>, answers: seq<Answer>, clock: int)

  datatype Step =
    | Ask(request: nat, key: Key)
    | Return(request: nat, result: Try<seq<Row>>)
    | Store(request: nat)

  /** A step of some request, and how long after the previous step it happens. */
  datatype Timed = Timed(step: Step, elapsed: nat)

  function Next(s: State, timed: Timed): State {
    var now := s.clock + timed.elapsed;
    var t := s.(clock := now);
    match timed.step
    case Ask(request, key) =>
      if request in s.requests then t
      else
        (match Hit(s.cache, key, now)
         case Some(rows) => t.(answers := s.answers + [Answer(key, Ok(rows), now)])
         case None => t.(requests := s.requests[request := Calling(key)]))
    case Return(request, result) =>
      if request !in s.requests || !s.requests[request].Calling? then t
      else
        var key := s.requests[request].key;
        var called := t.(calls := s.calls + [Call(key, result, None)]);
        (match result
         case Ok(rows) => called.(requests := s.requests[request := Storing(key, rows, |s.calls|)])
         case Err(_) => called.(requests := s.requests - {request}, answers := s.answers + [Answer(key, result, now)]))
    case Store(request) =>
      if request !in s.requests || !s.requests[request].Storing? || s.requests[request].call >= |s.calls| then t
      else
        var Storing(key, rows, call) := s.requests[request];
        t.(cache := s.cache[key := Entry(rows, now)],
           requests := s.requests - {request},
           calls := s.calls[call := s.calls[call].(storedAt := Some(now))],
           answers := s.answers + [Answer(key, Ok(rows), now)])
  }

  function Run(s: State, steps: seq<Timed>): State
    decreases |steps|
  {
    if |steps| == 0 then s else Run(Next(s, steps[0]), steps[1..])
  }

  function Initial(clock: int): State {
    State(map[], map[], [], [], clock)
  }

  // ---------- every answer has a recent source ----------

  /** The repository answered this very key, and if with rows, they were cached at most TTL before. */
  predicate Explains(call: Call, answer: Answer) {
    && call.key == answer.key && call.result == answer.result
    && (call.result.Ok? ==> call.storedAt.Some? && 0 <= answer.at - call.storedAt.value <= TTL)
  }

  ghost predicate Explained(calls: seq<Call>, answer: Answer) {
    exists c :: 0 <= c < |calls| && Explains(calls[c], answer)
  }

  ghost predicate Backed(calls: seq<Call>, key: Key, entry: Entry) {
    exists c :: 0 <= c < |calls| && calls[c] == Call(key, Ok(entry.rows), Some(entry.createdAt))
  }

  predicate Awaiting(calls: seq<Call>, phase: Phase) {
    phase.Storing? ==> phase.call < |calls| && calls[phase.call] == Call(phase.key, Ok(phase.rows), None)
  }

  ghost predicate Inv(s: State) {
    && (forall key :: key in s.cache ==> Backed(s.calls, key, s.cache[key]) && s.cache[key].createdAt <= s.clock)
    && (forall r: nat :: r in s.requests ==> Awaiting(s.calls, s.requests[r]))
    && (forall r: nat, q: nat :: r in s.requests && q in s.requests && r != q ==> Apart(s.requests[r], s.requests[q]))
    && (forall i :: 0 <= i < |s.answers| ==> Explained(s.calls, s.answers[i]))
  }

  predicate Apart(p: Phase, q: Phase) {
    p.Storing? && q.Storing? ==> p.call != q.call
  }

  /** Calls are only added, and only a successful call not yet stored may still change. */
  ghost predicate Extends(calls: seq<Call>, later: seq<Call>) {
    && |calls| <= |later|
    && forall c :: 0 <= c < |calls| ==>
         later[c] == calls[c] || (calls[c].result.Ok? && calls[c].storedAt == None)
  }

  lemma ExtendsKeeps(calls: seq<Call>, later: seq<Call>)
    requires Extends(calls, later)
    ensures forall answer :: Explained(calls, answer) ==> Explained(later, answer)
    ensures forall key, entry :: Backed(calls, key, entry) ==> Backed(later, key, entry)
  {
    forall answer | Explained(calls, answer) ensures Explained(later, answer) {
      var c :| 0 <= c < |calls| && Explains(calls[c], answer);
      assert Explains(later[c], answer);
    }
    forall key, entry | Backed(calls, key, entry) ensures Backed(later, key, entry) {
      var c :| 0 <= c < |calls| && calls[c] == Call(key, Ok(entry.rows), Some(entry.createdAt));
      assert later[c] == calls[c];
    }
  }

  lemma AskKeepsInv(s: State, request: nat, key: Key, elapsed: nat)
    requires Inv(s)
    ensures Inv(Next(s, Timed(Ask(request, key), elapsed)))
  {
    var next := Next(s, Timed(Ask(request, key), elapsed));
    if request !in s.requests && Hit(s.cache, key, next.clock).Some? {
      var c :| 0 <= c < |s.calls| && s.calls[c] == Call(key, Ok(s.cache[key].rows), Some(s.cache[key].createdAt));
      assert Explains(s.calls[c], next.answers[|s.answers|]);
    }
  }

  lemma ReturnKeepsInv(s: State, request: nat, result: Try<seq<Row>>, elapsed: nat)
    requires Inv(s)
    ensures Inv(Next(s, Timed(Return(request, result), elapsed)))
  {
    var next := Next(s, Timed(Return(request, result), elapsed));
    ExtendsKeeps(s.calls, next.calls);
    if request in s.requests && s.requests[request].Calling? && result.Err? {
      assert Explains(next.calls[|s.calls|], next.answers[|s.answers|]);
    }
  }

  lemma StoreKeepsInv(s: State, request: nat, elapsed: nat)
    requires Inv(s)
    ensures Inv(Next(s, Timed(Store(request), elapsed)))
  {
    var next := Next(s, Timed(Store(request), elapsed));
    if request in s.requests && s.requests[request].Storing? {
      assert Awaiting(s.calls, s.requests[request]);
      ExtendsKeeps(s.calls, next.calls);
      var Storing(key, rows, call) := s.requests[request];
      assert Explains(next.calls[call], next.answers[|s.answers|]);
      assert Backed(next.calls, key, next.cache[key]);
      forall r: nat | r in next.requests ensures Awaiting(next.calls, next.requests[r]) {
        assert Apart(s.requests[r], s.requests[request]) && Awaiting(s.calls, s.requests[r]);
      }
    }
  }

  lemma {:induction false} RunKeepsInv(s: State, steps: seq<Timed>)
    requires Inv(s)
    ensures Inv(Run(s, steps))
    decreases |steps|
  {
    hide Inv, Next;
    if |steps| > 0 {
      match steps[0].step {
        case Ask(request, key) => AskKeepsInv(s, request, key, steps[0].elapsed);
        case Return(request, result) => ReturnKeepsInv(s, request, result, steps[0].elapsed);
        case Store(request) => StoreKeepsInv(s, request, steps[0].elapsed);
      }
      RunKeepsInv(Next(s, steps[0]), steps[1..]);
    }
  }

  /**
   * Over any interleaving of requests every answer is what the repository returned for the same key, in a call
   * whose rows were cached at most 60 seconds before; and only successful calls are ever in the cache.
   */
  lemma EveryAnswerIsRecent(clock: int, steps: seq<Timed>)
    ensures var s := Run(Initial(clock), steps);
      && (forall i :: 0 <= i < |s.answers| ==> Explained(s.calls, s.answers[i]))
      && (forall key :: key in s.cache ==> Backed(s.calls, key, s.cache[key]))
  {
    RunKeepsInv(Initial(clock), steps);
  }

  ghost predicate CachedSince(s: State, key: Key, t: int) {
    key in s.cache && t <= s.cache[key].createdAt && s.cache[key].createdAt <= s.clock
  }

  lemma {:induction false} CachedSinceLasts(s: State, key: Key, t: int, steps: seq<Timed>)
    requires CachedSince(s, key, t)
    ensures CachedSince(Run(s, steps), key, t)
    decreases |steps|
  {
    if |steps| > 0 {
      CachedSinceLasts(Next(s, steps[0]), key, t, steps[1..]);
    }
  }

  /** For 60 seconds after a page is stored, whatever else runs, a request for it is answered without a repository call. */
  lemma FreshPageIsNotAskedAgain(s: State, key: Key, steps: seq<Timed>, request: nat)
    requires Inv(s) && key in s.cache
    requires var later := Run(s, steps); request !in later.requests && later.clock <= s.cache[key].createdAt + TTL
    ensures var later := Run(s, steps); var next := Next(later, Timed(Ask(request, key), 0));
      && next.calls == later.calls && request !in next.requests
      && |next.answers| == |later.answers| + 1 && next.answers[|later.answers|].result.Ok?
  {
    CachedSinceLasts(s, key, s.cache[key].createdAt, steps);
  }

  // ---------- the service object ----------

  class StatsService {
    var cache: map<Key, Entry>

    constructor ()
      ensures cache == map[]
    {
      cache := map[];
    }

    method CacheGet(key: Key, now: int) returns (r: Option<seq<Row>>)
      ensures r == Hit(cache, key, now)
    {
      if key !in cache {
        return None;
      }
      var entry := cache[key];
      if now - entry.createdAt > TTL {
        return None;
      }
      return Some(entry.rows);
    }

    method CachePut(key: Key, rows: seq<Row>, now: int)
      modifies this
      ensures cache == old(cache)[key := Entry(rows, now)]
    {
      cache := cache[key := Entry(rows, now)];
    }

    /**
     * One request alone, asking at clock asked; the repository, if called, gives answer, and its rows are stored
     * at clock stored. The request takes exactly the steps of the interleaved protocol.
     */
    method GetLeaderboard(key: Key, asked: int, answer: Try<seq<Row>>, stored: int) returns (r: Try<seq<Row>>)
      requires asked <= stored
      modifies this
      ensures var alone := Run(State(old(cache), map[], [], [], asked),
                               [Timed(Ask(0, key), 0), Timed(Return(0, answer), 0), Timed(Store(0), stored - asked)]);
        cache == alone.cache && |alone.answers| == 1 && r == alone.answers[0].result
    {
      UnfoldThree(State(cache, map[], [], [], asked),
                  Timed(Ask(0, key), 0), Timed(Return(0, answer), 0), Timed(Store(0), stored - asked));
      var entry := CacheGet(key, asked);
      if entry.Some? {
        return Ok(entry.value);
      }
      if answer.Err? {
        return answer;
      }
      CachePut(key, answer.value, stored);
      return answer;
    }
  }

  lemma UnfoldThree(s: State, a: Timed, b: Timed, c: Timed)
    ensures Run(s, [a, b, c]) == Next(Next(Next(s, a), b), c)
  {
    assert [a, b, c][1..] == [b, c] && [b, c][1..] == [c] && [c][1..] == [];
    assert Run(s, [a, b, c]) == Run(Next(s, a), [b, c]) == Run(Next(Next(s, a), b), [c]);
    assert Run(Next(Next(s, a), b), [c]) == Run(Next(Next(Next(s, a), b), c), []);
  }
}
