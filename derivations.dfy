/**
 * The values the handler derives from chain state: the window size, the seconds until the
 * next slash window, and per-asset vote coverage.
 */
module Derivations {
  import opened Wrappers
  import opened Uint64
  import opened Oracle
  import opened Metrics
  import opened Fold

  /**
   * `SlashWindow / VotePeriod` in uint64. `None` stands for the run-time panic Go raises
   * when `VotePeriod` is zero; otherwise the result is the truncated quotient.
   */
  function WindowSizeFor(p: Params): (r: Option<u64>)
    ensures r.None? <==> p.votePeriod == 0
    ensures r.Some? ==> r.value * p.votePeriod <= p.slashWindow < r.value * p.votePeriod + p.votePeriod
  {
    if p.votePeriod == 0 then None else Some(Div(p.slashWindow, p.votePeriod))
  }

  /** The seconds-until-next-window formula, evaluated the way Go evaluates it: left to right, each step in uint64. */
  function NextWindowSeconds(windowSize: u64, windowProgress: u64, blockTime: u64, votePeriod: u64): (r: u64)
    ensures r == ((windowSize - windowProgress + 1) * blockTime * votePeriod) % MOD
  {
    var blocks := Add(Sub(windowSize, windowProgress), 1);
    var perBlock := Mul(blocks, blockTime);
    NextWindowSecondsWraps(windowSize, windowProgress, blockTime, votePeriod);
    Mul(perBlock, votePeriod)
  }

  lemma NextWindowSecondsWraps(windowSize: u64, windowProgress: u64, blockTime: u64, votePeriod: u64)
    ensures Mul(Mul(Add(Sub(windowSize, windowProgress), 1), blockTime), votePeriod)
         == ((windowSize - windowProgress + 1) * blockTime * votePeriod) % MOD
  {
    var x := windowSize - windowProgress + 1;
    var blocks := Add(Sub(windowSize, windowProgress), 1);
    assert blocks == x % MOD;
    ModMulLeft(x, blockTime);
    var perBlock := Mul(blocks, blockTime);
    assert perBlock == (x * blockTime) % MOD;
    ModMulLeft(x * blockTime, votePeriod);
  }

  /**
   * The uint64 result equals the mathematical product exactly when the block count
   * `windowSize - windowProgress + 1` is not negative (or the block time is zero, which makes
   * the product zero) and the product fits in 64 bits. In every other case it has wrapped.
   */
  lemma NextWindowSecondsExact(windowSize: u64, windowProgress: u64, blockTime: u64, votePeriod: u64)
    requires votePeriod != 0
    ensures var exact := (windowSize - windowProgress + 1) * blockTime * votePeriod;
      NextWindowSeconds(windowSize, windowProgress, blockTime, votePeriod) == exact
      <==> (windowProgress <= windowSize + 1 || blockTime == 0) && exact < MOD
  {
    var blocks := windowSize - windowProgress + 1;
    var exact := blocks * blockTime * votePeriod;
    if windowProgress <= windowSize + 1 || blockTime == 0 {
      assert exact >= 0 by {
        if blockTime == 0 {
          assert exact == 0;
        } else {
          NonNegativeProduct(blocks, blockTime, votePeriod);
        }
      }
    } else {
      assert exact < 0 by {
        NegativeProduct(blocks, blockTime, votePeriod);
      }
    }
  }

  /**
   * The offset that next_window_start adds to the current time is `time.Duration(seconds)`,
   * the int64 reading of the uint64 seconds. Whenever the true product fits in int64 the
   * offset is that product, sign included: with a window progress past `windowSize + 1` and a
   * non-zero block time, the estimated start lies in the past.
   */
  lemma NextWindowOffset(windowSize: u64, windowProgress: u64, blockTime: u64, votePeriod: u64)
    requires votePeriod != 0
    ensures var exact := (windowSize - windowProgress + 1) * blockTime * votePeriod;
      -HALF <= exact < HALF ==> ToInt64(NextWindowSeconds(windowSize, windowProgress, blockTime, votePeriod)) == exact
    ensures var exact := (windowSize - windowProgress + 1) * blockTime * votePeriod;
      -HALF <= exact && windowProgress > windowSize + 1 && blockTime != 0
      ==> ToInt64(NextWindowSeconds(windowSize, windowProgress, blockTime, votePeriod)) < 0
  {
    var blocks := windowSize - windowProgress + 1;
    var exact := blocks * blockTime * votePeriod;
    var seconds := NextWindowSeconds(windowSize, windowProgress, blockTime, votePeriod);
    assert seconds == exact % MOD;
    if -HALF <= exact < 0 {
      assert exact % MOD == exact + MOD;
      assert ToInt64(seconds) == exact;
    } else if 0 <= exact < HALF {
      assert exact % MOD == exact;
    }
    if windowProgress > windowSize + 1 && blockTime != 0 {
      NegativeProduct(blocks, blockTime, votePeriod);
    }
  }

  lemma NonNegativeProduct(a: int, b: nat, c: nat)
    requires a >= 0
    ensures a * b * c >= 0
  {
  }

  lemma NegativeProduct(a: int, b: nat, c: nat)
    requires a < 0 && b > 0 && c > 0
    ensures a * b * c < 0
  {
    assert a * b < 0;
  }

  /** The validator submitted a rate for `symbol`: some tuple's denom equals it up to case. */
  predicate Voted(symbol: string, tuples: seq<ExchangeRateTuple>)
  {
    exists j :: 0 <= j < |tuples| && EqualFold(symbol, tuples[j].denom)
  }

  /** The aggregated_votes value: 0 for a covered asset, 1 for a missed one ("missed by default"). */
  function MissFlag(symbol: string, tuples: seq<ExchangeRateTuple>): (r: nat)
    ensures r <= 1
  {
    if Voted(symbol, tuples) then 0 else 1
  }

  /** The symbols of the accept list. */
  function Symbols(acceptList: seq<Denom>): (r: set<string>)
    ensures forall i :: 0 <= i < |acceptList| ==> acceptList[i].symbolDenom in r
    ensures forall s :: s in r ==> exists i :: 0 <= i < |acceptList| && acceptList[i].symbolDenom == s
  {
    set i | 0 <= i < |acceptList| :: acceptList[i].symbolDenom
  }

  /** Reference definition of the aggregated_votes gauges of one vote: one gauge per accepted symbol. */
  function VoteCoverage(acceptList: seq<Denom>, tuples: seq<ExchangeRateTuple>): (r: Snapshot)
  {
    map s | s in Symbols(acceptList) :: AggregatedVotesGauge(s) := Count(MissFlag(s, tuples))
  }

  /**
   * Vote coverage as promised: exactly the accepted symbols get a gauge, with value 0 when
   * some submitted tuple matches the symbol up to case and 1 otherwise.
   */
  lemma VoteCoverageMeaning(acceptList: seq<Denom>, tuples: seq<ExchangeRateTuple>, k: MetricKey)
    ensures var cov := VoteCoverage(acceptList, tuples);
      && (k in cov <==> k.AggregatedVotesGauge? && exists i :: 0 <= i < |acceptList| && acceptList[i].symbolDenom == k.asset)
      && (k in cov ==> (cov[k] == Count(0) <==> Voted(k.asset, tuples)))
      && (k in cov ==> (cov[k] == Count(1) <==> !Voted(k.asset, tuples)))
  {
    var cov := VoteCoverage(acceptList, tuples);
    if k in cov {
      assert k.AggregatedVotesGauge? && k.asset in Symbols(acceptList);
    }
  }

  lemma VoteCoverageSnoc(acceptList: seq<Denom>, i: nat, tuples: seq<ExchangeRateTuple>)
    requires i < |acceptList|
    ensures VoteCoverage(acceptList[..i + 1], tuples)
         == VoteCoverage(acceptList[..i], tuples)[AggregatedVotesGauge(acceptList[i].symbolDenom) := Count(MissFlag(acceptList[i].symbolDenom, tuples))]
  {
    var s := acceptList[i].symbolDenom;
    assert Symbols(acceptList[..i + 1]) == Symbols(acceptList[..i]) + {s} by {
      forall t | t in Symbols(acceptList[..i + 1]) ensures t in Symbols(acceptList[..i]) + {s} {
        var j :| 0 <= j < i + 1 && acceptList[..i + 1][j].symbolDenom == t;
        if j < i {
          assert acceptList[..i][j] == acceptList[..i + 1][j];
        }
      }
      forall t | t in Symbols(acceptList[..i]) ensures t in Symbols(acceptList[..i + 1]) {
        var j :| 0 <= j < i && acceptList[..i][j].symbolDenom == t;
        assert acceptList[..i + 1][j] == acceptList[..i][j];
      }
      assert acceptList[..i + 1][i] == acceptList[i];
    }
  }

  lemma UnionUpdate(base: Snapshot, m: Snapshot, k: MetricKey, v: Value)
    ensures (base + m)[k := v] == base + m[k := v]
  {
  }

  /**
   * The vote task's loop: for each accepted asset, scan the submitted tuples for a
   * case-insensitive match, stopping at the first one, and set the asset's gauge in `sink`.
   */
  method CollectVotes(sink: Snapshot, acceptList: seq<Denom>, tuples: seq<ExchangeRateTuple>) returns (out: Snapshot)
    ensures out == sink + VoteCoverage(acceptList, tuples)
  {
    out := sink;
    for i := 0 to |acceptList|
      invariant out == sink + VoteCoverage(acceptList[..i], tuples)
    {
      var asset := acceptList[i];
      var isContains: nat := 1; // missed by default
      var j := 0;
      while j < |tuples|
        invariant 0 <= j <= |tuples|
        invariant isContains == 1
        invariant forall m :: 0 <= m < j ==> !EqualFold(asset.symbolDenom, tuples[m].denom)
      {
        if EqualFold(asset.symbolDenom, tuples[j].denom) {
          isContains := 0; // no misses
          break;
        }
        j := j + 1;
      }
      assert isContains == MissFlag(asset.symbolDenom, tuples);
      VoteCoverageSnoc(acceptList, i, tuples);
      UnionUpdate(sink, VoteCoverage(acceptList[..i], tuples), AggregatedVotesGauge(asset.symbolDenom), Count(isContains));
      out := out[AggregatedVotesGauge(asset.symbolDenom) := Count(isContains)];
    }
    assert acceptList[..|acceptList|] == acceptList;
  }

  /**
   * The worked figures: 100 / 30 truncates to 3, and 3 - 1 + 1 blocks of 6 s at 30 blocks per
   * period take 540 s. A progress of 5 in a window of 3 wraps to 2^64 - 180, which
   * `time.Duration` reads as -180: an estimate three minutes in the past.
   */
  lemma ArithmeticExamples()
    ensures Div(100, 30) == 3
    ensures NextWindowSeconds(3, 1, 6, 30) == 540
    ensures NextWindowSeconds(3, 5, 6, 30) == MOD - 180
    ensures ToInt64(NextWindowSeconds(3, 5, 6, 30)) == -180
  {
  }

  /** A vote for "atom" covers "ATOM" (EqualFold ignores case) but not "UMEE". */
  lemma MissFlagExample()
    ensures MissFlag("ATOM", [ExchangeRateTuple("atom", Dec(1))]) == 0
    ensures MissFlag("UMEE", [ExchangeRateTuple("atom", Dec(1))]) == 1
  {
    var tuples := [ExchangeRateTuple("atom", Dec(1))];
    EqualFoldExample();
    assert tuples[0].denom == "atom";
    assert EqualFold("ATOM", tuples[0].denom);
    forall j | 0 <= j < |tuples| ensures !EqualFold("UMEE", tuples[j].denom) {
      assert j == 0;
    }
  }
}
