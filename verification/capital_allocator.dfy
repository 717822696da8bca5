/**
 Dividing capital between ranked candidates: equal weight, score weight and fixed risk,
 each capped per trade and rounded to whole paise. Amounts are in paise.
 */
module CapitalAllocation {
  import opened Wrappers
  import opened Rounding

  datatype Candidate = Candidate(id: nat, score: real, entry: real, stop: real)

  datatype Method = EqualWeight | ScoreWeighted | FixedRisk

  datatype Reason = CapitalBelowMinimum | ZeroRiskPerShare

  datatype Allocation = Allocation(id: nat, rule: Method, amount: int, rejection: Option<Reason>)

  function Least(a: real, b: real): real {
    if b < a then b else a
  }

  function AbsReal(x: real): real {
    if x >= 0.0 then x else -x
  }

  function TotalScore(candidates: seq<Candidate>): real {
    if candidates == [] then 0.0 else
    TotalScore(candidates[..|candidates| - 1]) + candidates[|candidates| - 1].score
  }

  /** The capital settings an allocator is built from. */
  datatype Settings = Settings(maxPerTrade: real, fixedRisk: real, minimum: real)

  function EqualShare(s: Settings, available: real, n: nat): real
    requires n > 0
  {
    Least(available / n as real, s.maxPerTrade)
  }

  function ScoreShare(s: Settings, available: real, score: real, total: real): real
    requires total > 0.0
  {
    Least(available * (score / total), s.maxPerTrade)
  }

  function RiskShare(s: Settings, available: real, entry: real, riskPerShare: real): real
    requires riskPerShare > 0.0
  {
    Least(Least(s.fixedRisk / riskPerShare * entry, s.maxPerTrade), available)
  }

  function Decided(s: Settings, id: nat, m: Method, share: real): Allocation {
    if share < s.minimum then Allocation(id, m, 0, Some(CapitalBelowMinimum))
    else Allocation(id, m, Round(share), None)
  }

  /** The decision for candidate `k` of a batch. */
  function DecisionFor(s: Settings, candidates: seq<Candidate>, available: real, m: Method, k: nat): Allocation
    requires k < |candidates|
  {
    var c, total := candidates[k], TotalScore(candidates);
    match m
    case EqualWeight => Decided(s, c.id, EqualWeight, EqualShare(s, available, |candidates|))
    case ScoreWeighted =>
      if total <= 0.0 then Decided(s, c.id, EqualWeight, EqualShare(s, available, |candidates|))
      else Decided(s, c.id, ScoreWeighted, ScoreShare(s, available, c.score, total))
    case FixedRisk =>
      var riskPerShare := AbsReal(c.entry - c.stop);
      if riskPerShare <= 0.0 then Allocation(c.id, FixedRisk, 0, Some(ZeroRiskPerShare))
      else Decided(s, c.id, FixedRisk, RiskShare(s, available, c.entry, riskPerShare))
  }

  /** A batch: one decision per candidate, in the candidates' order. */
  function Batch(s: Settings, candidates: seq<Candidate>, available: real, m: Method): (r: seq<Allocation>)
    ensures |r| == |candidates|
    ensures forall k :: 0 <= k < |r| ==> r[k].id == candidates[k].id
  {
    seq(|candidates|, k requires 0 <= k < |candidates| => DecisionFor(s, candidates, available, m, k))
  }

  class CapitalAllocator {
    const settings: Settings

    constructor (total: real, maxPerTradePct: real, fixedRiskPct: real, minimum: real)
      ensures settings == Settings(total * maxPerTradePct, total * fixedRiskPct, minimum)
    {
      settings := Settings(total * maxPerTradePct, total * fixedRiskPct, minimum);
    }

    method Allocate(candidates: seq<Candidate>, available: real, m: Method) returns (results: seq<Allocation>)
      ensures results == Batch(settings, candidates, available, m)
    {
      if candidates == [] {
        return [];
      }
      match m
      case EqualWeight => results := AllocateEqually(candidates, available);
      case ScoreWeighted => results := AllocateByScore(candidates, available);
      case FixedRisk => results := AllocateByRisk(candidates, available);
    }

    /** Rejects a share below the minimum and rounds any other to whole paise. */
    method Decide(id: nat, m: Method, share: real) returns (a: Allocation)
      ensures a == Decided(settings, id, m, share)
    {
      if share < settings.minimum {
        return Allocation(id, m, 0, Some(CapitalBelowMinimum));
      }
      return Allocation(id, m, Round(share), None);
    }

    method AllocateEqually(candidates: seq<Candidate>, available: real) returns (results: seq<Allocation>)
      requires candidates != []
      ensures results == Batch(settings, candidates, available, EqualWeight)
    {
      var raw := available / |candidates| as real;
      var share := Least(raw, settings.maxPerTrade);
      results := [];
      for k := 0 to |candidates|
        invariant results == Batch(settings, candidates, available, EqualWeight)[..k]
      {
        var decision := Decide(candidates[k].id, EqualWeight, share);
        results := results + [decision];
      }
    }

    method AllocateByScore(candidates: seq<Candidate>, available: real) returns (results: seq<Allocation>)
      requires candidates != []
      ensures results == Batch(settings, candidates, available, ScoreWeighted)
    {
      var total := 0.0;
      for k := 0 to |candidates|
        invariant total == TotalScore(candidates[..k])
      {
        assert candidates[..k + 1][..k] == candidates[..k];
        total := total + candidates[k].score;
      }
      assert candidates[..|candidates|] == candidates;
      if total <= 0.0 {
        results := AllocateEqually(candidates, available);
        assert Batch(settings, candidates, available, EqualWeight) == Batch(settings, candidates, available, ScoreWeighted);
        return;
      }
      results := [];
      for k := 0 to |candidates|
        invariant results == Batch(settings, candidates, available, ScoreWeighted)[..k]
      {
        var share := ScoreShare(settings, available, candidates[k].score, total);
        var decision := Decide(candidates[k].id, ScoreWeighted, share);
        assert decision == DecisionFor(settings, candidates, available, ScoreWeighted, k);
        results := results + [decision];
      }
    }

    method AllocateByRisk(candidates: seq<Candidate>, available: real) returns (results: seq<Allocation>)
      ensures results == Batch(settings, candidates, available, FixedRisk)
    {
      results := [];
      for k := 0 to |candidates|
        invariant results == Batch(settings, candidates, available, FixedRisk)[..k]
      {
        var c := candidates[k];
        var riskPerShare := AbsReal(c.entry - c.stop);
        if riskPerShare <= 0.0 {
          results := results + [Allocation(c.id, FixedRisk, 0, Some(ZeroRiskPerShare))];
          continue;
        }
        var share := RiskShare(settings, available, c.entry, riskPerShare);
        var decision := Decide(c.id, FixedRisk, share);
        assert decision == DecisionFor(settings, candidates, available, FixedRisk, k);
        results := results + [decision];
      }
    }
  }

  // ---- Bounds on each allocation ------------------------------------------

  /** Each allocation is zero with a reason, or within half a paisa of the minimum and the cap. */
  lemma {:induction false} AllocationsAreWithinBounds(s: Settings, candidates: seq<Candidate>, available: real,
                                                      m: Method, k: nat)
    requires k < |candidates|
    ensures var a := Batch(s, candidates, available, m)[k];
            if a.rejection.Some? then a.amount == 0
            else s.minimum - 0.5 <= a.amount as real <= s.maxPerTrade + 0.5
  {
  }

  /** The decision pays the share to the nearest paisa, or refuses one below the minimum. */
  predicate Pays(a: Allocation, s: Settings, share: real) {
    if share < s.minimum then a.amount == 0 && a.rejection == Some(CapitalBelowMinimum)
    else -0.5 <= a.amount as real - share <= 0.5 && a.rejection.None?
  }

  /** The share is the largest that is within the cap and, `parts` times over, within `whole`. */
  predicate IsLargestPart(share: real, cap: real, parts: real, whole: real) {
    && share <= cap && share * parts <= whole
    && (share == cap || share * parts == whole)
  }

  /** With equal weights `n` shares are as large as the cap and the available capital let them be. */
  lemma {:induction false} EqualShareIsLargest(s: Settings, available: real, n: nat)
    requires n > 0
    ensures IsLargestPart(EqualShare(s, available, n), s.maxPerTrade, n as real, available)
  {
    LeastIsLargest(available / n as real, s.maxPerTrade, n as real, available);
  }

  lemma {:induction false} LeastIsLargest(raw: real, cap: real, parts: real, whole: real)
    requires parts > 0.0 && raw * parts == whole
    ensures IsLargestPart(Least(raw, cap), cap, parts, whole)
  {
    if cap < raw {
      assert (raw - cap) * parts >= 0.0;
    }
  }

  /** A score's share is the candidate's part of the available capital, or the cap. */
  lemma {:induction false} ScoreShareIsLargest(s: Settings, available: real, score: real, total: real)
    requires total > 0.0
    ensures IsLargestPart(ScoreShare(s, available, score, total), s.maxPerTrade, total, available * score)
  {
    var part := score / total;
    assert part * total == score;
    assert available * part * total == available * (part * total);
    LeastIsLargest(available * part, s.maxPerTrade, total, available * score);
  }

  /**
   A risk share buys as many shares as lose the fixed amount between entry and stop, or meets the
   cap or the available capital.
   */
  lemma {:induction false} RiskShareIsLargest(s: Settings, available: real, entry: real, risk: real)
    requires risk > 0.0
    ensures var cap := Least(s.maxPerTrade, available);
            IsLargestPart(RiskShare(s, available, entry, risk), cap, risk, s.fixedRisk * entry)
  {
    var shares := s.fixedRisk / risk;
    assert shares * risk == s.fixedRisk;
    assert shares * entry * risk == shares * risk * entry;
    LeastIsLargest(shares * entry, Least(s.maxPerTrade, available), risk, s.fixedRisk * entry);
  }

  /** Nobody gets less than the method's share: a result pays it to the nearest paisa or refuses it as too small. */
  lemma {:induction false} AllocationPaysItsShare(s: Settings, candidates: seq<Candidate>, available: real,
                                                  m: Method, k: nat)
    requires k < |candidates|
    ensures var a, c, total := Batch(s, candidates, available, m)[k], candidates[k], TotalScore(candidates);
            var risk := if c.entry >= c.stop then c.entry - c.stop else c.stop - c.entry;
            if m == FixedRisk then
              if risk == 0.0 then a.amount == 0 && a.rejection == Some(ZeroRiskPerShare)
              else Pays(a, s, RiskShare(s, available, c.entry, risk))
            else if m == ScoreWeighted && total > 0.0 then Pays(a, s, ScoreShare(s, available, c.score, total))
            else Pays(a, s, EqualShare(s, available, |candidates|))
  {
  }

  /** The amount decided for the candidate passes the per-trade cap. */
  predicate PassesTheCap(s: Settings, candidates: seq<Candidate>, available: real, m: Method, k: nat) {
    k < |candidates| && Batch(s, candidates, available, m)[k].amount as real > s.maxPerTrade
  }

  /** For which settings some batch, by some method, can pass the cap. */
  predicate CapIsPassable(s: Settings) {
    s.maxPerTrade < 0.0 || (Round(s.maxPerTrade) as real > s.maxPerTrade && s.minimum <= s.maxPerTrade)
  }

  lemma {:induction false} PassingNeedsRounding(s: Settings, candidates: seq<Candidate>, available: real, m: Method, k: nat)
    requires PassesTheCap(s, candidates, available, m, k)
    ensures CapIsPassable(s)
  {
    forall share: real | share <= s.maxPerTrade
      ensures Round(share) <= Round(s.maxPerTrade)
    {
      RoundIsMonotone(share, s.maxPerTrade);
    }
  }

  /**
   Some batch can pass the cap exactly when the settings let the cap itself round past the cap
   and be allotted, or the cap is negative and even a refusal's zero is above it.
   */
  lemma {:induction false} CapIsPassedIff(s: Settings)
    ensures (exists candidates, available, m, k :: PassesTheCap(s, candidates, available, m, k)) <==> CapIsPassable(s)
  {
    if candidates, available, m, k :| PassesTheCap(s, candidates, available, m, k) {
      PassingNeedsRounding(s, candidates, available, m, k);
    }
    if CapIsPassable(s) {
      var one := [Candidate(0, 0.0, 0.0, 0.0)];
      if s.maxPerTrade < 0.0 {
        assert PassesTheCap(s, one, 0.0, FixedRisk, 0);
      } else {
        assert EqualShare(s, s.maxPerTrade, 1) == s.maxPerTrade;
        assert PassesTheCap(s, one, s.maxPerTrade, EqualWeight, 0);
      }
    }
  }

  // ---- The total ----------------------------------------------------------

  function Total(results: seq<Allocation>): int {
    if results == [] then 0 else Total(results[..|results| - 1]) + results[|results| - 1].amount
  }

  function SumOf(shares: seq<real>): real {
    if shares == [] then 0.0 else SumOf(shares[..|shares| - 1]) + shares[|shares| - 1]
  }

  /** Rounding adds at most half a paisa per result. */
  lemma {:induction false} TotalIsNearShares(results: seq<Allocation>, shares: seq<real>)
    requires |results| == |shares|
    requires forall k :: 0 <= k < |shares| ==> results[k].amount as real <= shares[k] + 0.5
    ensures Total(results) as real <= SumOf(shares) + |shares| as real * 0.5
  {
    if shares != [] {
      var k := |shares| - 1;
      TotalIsNearShares(results[..k], shares[..k]);
    }
  }

  function EqualShares(s: Settings, available: real, n: nat, count: nat): (r: seq<real>)
    requires count > 0
    ensures |r| == n
  {
    seq(n, _ => EqualShare(s, available, count))
  }

  lemma {:induction false} EqualSharesSum(s: Settings, available: real, n: nat, count: nat)
    requires count > 0
    ensures SumOf(EqualShares(s, available, n, count)) == n as real * EqualShare(s, available, count)
  {
    if n > 0 {
      EqualSharesSum(s, available, n - 1, count);
      assert EqualShares(s, available, n, count)[..n - 1] == EqualShares(s, available, n - 1, count);
      var x := EqualShare(s, available, count);
      assert (n - 1) as real * x + x == n as real * x;
    }
  }

  lemma {:induction false} DividedEvenly(available: real, n: nat, share: real)
    requires n > 0 && share <= available / n as real
    ensures n as real * share <= available
  {
    var d := n as real;
    assert d * (available / d) == available;
    assert d * (available / d - share) >= 0.0;
  }

  ghost predicate FairScores(candidates: seq<Candidate>) {
    forall k :: 0 <= k < |candidates| ==> candidates[k].score >= 0.0
  }

  function ScoreShares(s: Settings, candidates: seq<Candidate>, available: real, total: real): (r: seq<real>)
    requires total > 0.0
    ensures |r| == |candidates|
  {
    seq(|candidates|, k requires 0 <= k < |candidates| => ScoreShare(s, available, candidates[k].score, total))
  }

  lemma {:induction false} SplitShare(available: real, a: real, b: real, total: real)
    requires total > 0.0
    ensures available * (a / total) + available * (b / total) == available * ((a + b) / total)
  {
    assert a / total + b / total == (a + b) / total;
  }

  lemma {:induction false} NothingShared(available: real, total: real)
    requires total > 0.0
    ensures available * (0.0 / total) == 0.0
  {
  }

  lemma {:induction false} ScoreSharesSum(s: Settings, candidates: seq<Candidate>, available: real, total: real)
    requires total > 0.0
    ensures SumOf(ScoreShares(s, candidates, available, total)) <= available * (TotalScore(candidates) / total)
  {
    if candidates == [] {
      NothingShared(available, total);
    } else {
      var k := |candidates| - 1;
      ScoreSharesSum(s, candidates[..k], available, total);
      OneMoreShare(s, candidates, available, total, SumOf(ScoreShares(s, candidates[..k], available, total)));
    }
  }

  lemma {:induction false} OneMoreShare(s: Settings, candidates: seq<Candidate>, available: real, total: real, before: real)
    requires total > 0.0 && candidates != []
    requires before == SumOf(ScoreShares(s, candidates[..|candidates| - 1], available, total))
    requires before <= available * (TotalScore(candidates[..|candidates| - 1]) / total)
    ensures SumOf(ScoreShares(s, candidates, available, total)) <= available * (TotalScore(candidates) / total)
  {
    var k := |candidates| - 1;
    var shares, share := ScoreShares(s, candidates, available, total), ScoreShare(s, available, candidates[k].score, total);
    assert shares[..k] == ScoreShares(s, candidates[..k], available, total) && shares[k] == share;
    AddShare(before, share, available, TotalScore(candidates[..k]), candidates[k].score, total);
  }

  lemma {:induction false} AddShare(sum: real, share: real, available: real, before: real, score: real, total: real)
    requires total > 0.0 && sum <= available * (before / total) && share <= available * (score / total)
    ensures sum + share <= available * ((before + score) / total)
  {
    SplitShare(available, before, score, total);
  }

  lemma {:induction false} ShareIsNonNegative(available: real, score: real, total: real)
    requires available >= 0.0 && score >= 0.0 && total > 0.0
    ensures available * (score / total) >= 0.0
  {
    assert score / total >= 0.0;
  }

  lemma {:induction false} EqualShareIsNonNegative(s: Settings, available: real, n: nat)
    requires n > 0 && available >= 0.0 && s.maxPerTrade >= 0.0
    ensures EqualShare(s, available, n) >= 0.0
  {
    assert available / n as real >= 0.0;
  }

  lemma {:induction false} EqualSharesFit(s: Settings, available: real, n: nat)
    requires n > 0
    ensures SumOf(EqualShares(s, available, n, n)) <= available
  {
    EqualSharesSum(s, available, n, n);
    DividedEvenly(available, n, EqualShare(s, available, n));
  }

  lemma {:induction false} EqualAmounts(s: Settings, candidates: seq<Candidate>, available: real, k: nat)
    requires k < |candidates| && available >= 0.0 && s.maxPerTrade >= 0.0
    ensures Batch(s, candidates, available, EqualWeight)[k].amount as real
            <= EqualShares(s, available, |candidates|, |candidates|)[k] + 0.5
  {
    var share := EqualShare(s, available, |candidates|);
    EqualShareIsNonNegative(s, available, |candidates|);
    DecidedIsNear(s, candidates[k].id, EqualWeight, share, share);
  }

  lemma {:induction false} EqualWeightFits(s: Settings, candidates: seq<Candidate>, available: real)
    requires candidates != [] && available >= 0.0 && s.maxPerTrade >= 0.0
    ensures Total(Batch(s, candidates, available, EqualWeight)) as real
            <= available + |candidates| as real * 0.5
  {
    forall k | 0 <= k < |candidates|
      ensures Batch(s, candidates, available, EqualWeight)[k].amount as real
              <= EqualShares(s, available, |candidates|, |candidates|)[k] + 0.5
    {
      EqualAmounts(s, candidates, available, k);
    }
    TotalIsNearShares(Batch(s, candidates, available, EqualWeight), EqualShares(s, available, |candidates|, |candidates|));
    EqualSharesFit(s, available, |candidates|);
  }

  /**
   Equal-weight and score-weighted batches hand out at most the available capital plus half
   a paisa of rounding per candidate.
   */
  lemma {:induction false} BatchFitsAvailable(s: Settings, candidates: seq<Candidate>, available: real, m: Method)
    requires m != FixedRisk && FairScores(candidates) && available >= 0.0 && s.maxPerTrade >= 0.0
    ensures Total(Batch(s, candidates, available, m)) as real <= available + |candidates| as real * 0.5
  {
    if candidates == [] {
      assert Batch(s, candidates, available, m) == [];
    } else {
      EqualWeightFits(s, candidates, available);
      var total := TotalScore(candidates);
      if m == ScoreWeighted {
        if total <= 0.0 {
          FallbackIsEqual(s, candidates, available);
        } else {
          ScoreWeightFits(s, candidates, available);
        }
      }
    }
  }

  lemma {:induction false} FallbackIsEqual(s: Settings, candidates: seq<Candidate>, available: real)
    requires TotalScore(candidates) <= 0.0
    ensures Batch(s, candidates, available, ScoreWeighted) == Batch(s, candidates, available, EqualWeight)
  {
  }

  lemma {:induction false} WholeShare(available: real, total: real)
    requires total > 0.0
    ensures available * (total / total) == available
  {
  }

  lemma {:induction false} ScoreWeightFits(s: Settings, candidates: seq<Candidate>, available: real)
    requires TotalScore(candidates) > 0.0 && FairScores(candidates) && available >= 0.0 && s.maxPerTrade >= 0.0
    ensures Total(Batch(s, candidates, available, ScoreWeighted)) as real <= available + |candidates| as real * 0.5
  {
    var total := TotalScore(candidates);
    var shares, batch := ScoreShares(s, candidates, available, total), Batch(s, candidates, available, ScoreWeighted);
    forall k | 0 <= k < |candidates|
      ensures batch[k].amount as real <= shares[k] + 0.5
    {
      ShareIsNonNegative(available, candidates[k].score, total);
    }
    TotalIsNearShares(batch, shares);
    ScoreSharesSum(s, candidates, available, total);
    WholeShare(available, total);
  }

  // ---- Order and risk -----------------------------------------------------

  lemma {:induction false} SharesFollowScores(available: real, a: real, b: real, total: real)
    requires available >= 0.0 && 0.0 <= a <= b && total > 0.0
    ensures 0.0 <= available * (a / total) <= available * (b / total)
  {
    assert 0.0 <= a / total <= b / total by {
      assert (b - a) / total >= 0.0;
    }
    assert available * (b / total - a / total) >= 0.0;
  }

  lemma {:induction false} CappedSharesFollowScores(s: Settings, available: real, a: real, b: real, total: real)
    requires available >= 0.0 && 0.0 <= a <= b && total > 0.0 && s.maxPerTrade >= 0.0
    ensures 0.0 <= ScoreShare(s, available, a, total) <= ScoreShare(s, available, b, total)
  {
    SharesFollowScores(available, a, b, total);
  }

  /** A better score never gets less capital in a weighted batch. */
  lemma {:induction false} BetterScoreGetsNoLess(s: Settings, candidates: seq<Candidate>, available: real, m: Method,
                                                 i: nat, j: nat)
    requires i < |candidates| && j < |candidates| && candidates[i].score <= candidates[j].score
    requires m != FixedRisk && FairScores(candidates) && available >= 0.0 && s.maxPerTrade >= 0.0
    ensures Batch(s, candidates, available, m)[i].amount <= Batch(s, candidates, available, m)[j].amount
  {
    var total := TotalScore(candidates);
    if m == ScoreWeighted && total > 0.0 {
      CappedSharesFollowScores(s, available, candidates[i].score, candidates[j].score, total);
      LargerShareGetsNoLess(s, candidates[i].id, candidates[j].id, ScoreWeighted,
                            ScoreShare(s, available, candidates[i].score, total),
                            ScoreShare(s, available, candidates[j].score, total));
    }
  }

  lemma {:induction false} LargerShareGetsNoLess(s: Settings, i: nat, j: nat, m: Method, a: real, b: real)
    requires 0.0 <= a <= b
    ensures Decided(s, i, m, a).amount <= Decided(s, j, m, b).amount
  {
    RoundIsMonotone(a, b);
    RoundIsMonotone(0.0, b);
    WholeIsFixed(0);
  }

  lemma {:induction false} LossAtStop(fixedRisk: real, risk: real, entry: real, amount: real)
    requires risk > 0.0 && entry > 0.0 && amount <= fixedRisk / risk * entry + 0.5
    ensures amount / entry * risk <= fixedRisk + 0.5 / entry * risk
  {
    var shares := fixedRisk / risk;
    assert shares * risk == fixedRisk;
    assert amount / entry <= (shares * entry + 0.5) / entry == shares + 0.5 / entry by {
      assert (shares * entry + 0.5 - amount) / entry >= 0.0;
      assert shares * entry / entry == shares;
    }
    assert (shares + 0.5 / entry - amount / entry) * risk >= 0.0;
  }

  /** Exiting a fixed-risk position at its stop loses at most the fixed amount, up to rounding. */
  lemma {:induction false} FixedRiskBoundsTheLoss(s: Settings, candidates: seq<Candidate>, available: real, k: nat)
    requires k < |candidates| && candidates[k].entry > 0.0 && s.fixedRisk >= 0.0
    ensures var c, a := candidates[k], Batch(s, candidates, available, FixedRisk)[k];
            var risk := AbsReal(c.entry - c.stop);
            && a.amount as real / c.entry * risk <= s.fixedRisk + 0.5 / c.entry * risk
            && (a.rejection.None? ==> a.amount as real <= available + 0.5)
  {
    var c, a := candidates[k], Batch(s, candidates, available, FixedRisk)[k];
    var risk := AbsReal(c.entry - c.stop);
    if risk > 0.0 {
      RiskShareLosesLittle(s, available, c.id, c.entry, risk);
    } else {
      NoLossWithoutRisk(c.entry);
    }
  }

  lemma {:induction false} RiskShareLosesLittle(s: Settings, available: real, id: nat, entry: real, risk: real)
    requires risk > 0.0 && entry > 0.0 && s.fixedRisk >= 0.0
    ensures var a := Decided(s, id, FixedRisk, RiskShare(s, available, entry, risk));
            && a.amount as real / entry * risk <= s.fixedRisk + 0.5 / entry * risk
            && (a.rejection.None? ==> a.amount as real <= available + 0.5)
  {
    var share := RiskShare(s, available, entry, risk);
    NonNegativeShares(s.fixedRisk, risk, entry);
    DecidedIsNear(s, id, FixedRisk, share, s.fixedRisk / risk * entry);
    LossAtStop(s.fixedRisk, risk, entry, Decided(s, id, FixedRisk, share).amount as real);
  }

  lemma {:induction false} NoLossWithoutRisk(entry: real)
    requires entry > 0.0
    ensures 0.0 / entry * 0.0 <= 0.5 / entry * 0.0
  {
  }

  lemma {:induction false} DecidedIsNear(s: Settings, id: nat, m: Method, share: real, bound: real)
    requires share <= bound && bound >= 0.0
    ensures Decided(s, id, m, share).amount as real <= bound + 0.5
  {
  }

  lemma {:induction false} NonNegativeShares(fixedRisk: real, risk: real, entry: real)
    requires fixedRisk >= 0.0 && risk > 0.0 && entry > 0.0
    ensures fixedRisk / risk * entry >= 0.0
  {
    assert fixedRisk / risk >= 0.0;
  }
}
