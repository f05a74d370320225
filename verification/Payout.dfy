/** Payout arithmetic: floor(stake * odds) with odds in thousandths. */
module Payout {
  import opened Sums

  const MAX_INT64 := 0x7fff_ffff_ffff_ffff
  const MAX_ODDS := 99_999_999 // the largest NUMERIC(8,3), in thousandths

  /** computePotentialPayout: decimal product, then IntPart, which truncates toward zero. */
  function ComputePotentialPayout(stake: int, odds: int): int {
    Truncated(stake * odds)
  }

  function Truncated(thousandths: int): int {
    if thousandths >= 0 then thousandths / 1000 else -(-thousandths / 1000)
  }

  lemma TimesMonotone(a: int, b: int, c: int)
    requires a <= b && c >= 0
    ensures a * c <= b * c
  {
  }

  /** For every bet that can be stored the payout is the exact floor and never below the stake. */
  lemma PayoutIsFloor(stake: int, odds: int)
    requires stake > 0 && odds > 1000
    ensures var p := ComputePotentialPayout(stake, odds); 1000 * p <= stake * odds < 1000 * (p + 1)
    ensures stake <= ComputePotentialPayout(stake, odds)
  {
    TimesMonotone(1000, odds, stake);
  }

  /** The largest stake whose payout fits a BIGINT at every storable price. */
  const MAX_SAFE_STAKE := 92_233_721_290_884

  lemma PayoutFitsInt64(stake: int)
    requires stake > 0
    ensures (forall odds :: 1000 < odds <= MAX_ODDS ==> ComputePotentialPayout(stake, odds) <= MAX_INT64)
       <==> stake <= MAX_SAFE_STAKE
  {
    if stake <= MAX_SAFE_STAKE {
      forall odds | 1000 < odds <= MAX_ODDS
        ensures ComputePotentialPayout(stake, odds) <= MAX_INT64
      {
        PayoutIsFloor(stake, odds);
        TimesMonotone(odds, MAX_ODDS, stake);
        TimesMonotone(stake, MAX_SAFE_STAKE, MAX_ODDS);
      }
    } else {
      PayoutIsFloor(stake, MAX_ODDS);
      TimesMonotone(MAX_SAFE_STAKE + 1, stake, MAX_ODDS);
      assert ComputePotentialPayout(stake, MAX_ODDS) > MAX_INT64;
    }
  }

  function Stake(): int -> int { (s: int) => s }

  function PayoutAt(odds: int): int -> int { (s: int) => ComputePotentialPayout(s, odds) }

  /** Splitting a stake into n bets at one price never gains and loses fewer than n fantics. */
  lemma {:induction false} SplittingNeverGains(parts: seq<int>, odds: int)
    requires |parts| > 0 && odds > 1000
    requires forall i :: 0 <= i < |parts| ==> parts[i] > 0
    ensures var whole := ComputePotentialPayout(Total(parts, Stake()), odds);
            var split := Total(parts, PayoutAt(odds));
            split <= whole < split + |parts|
  {
    SplitBounds(parts, odds);
    TotalBounds(parts, Stake());
    assert Total(parts, Stake()) >= Stake()(parts[0]) > 0;
    PayoutIsFloor(Total(parts, Stake()), odds);
  }

  lemma {:induction false} SplitBounds(parts: seq<int>, odds: int)
    requires odds > 1000
    requires forall i :: 0 <= i < |parts| ==> parts[i] > 0
    ensures 1000 * Total(parts, PayoutAt(odds)) <= Total(parts, Stake()) * odds
    ensures |parts| > 0 ==> Total(parts, Stake()) * odds < 1000 * (Total(parts, PayoutAt(odds)) + |parts|)
  {
    if |parts| > 0 {
      var n := |parts| - 1;
      SplitBounds(parts[..n], odds);
      PayoutIsFloor(parts[n], odds);
      assert (Total(parts[..n], Stake()) + parts[n]) * odds == Total(parts[..n], Stake()) * odds + parts[n] * odds;
    }
  }
}
