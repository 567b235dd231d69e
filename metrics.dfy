/**
 * The per-request metric sink: which gauge (name plus label values) holds which value, and
 * which part of the handler is allowed to write each gauge.
 */
module Metrics {
  import opened Uint64
  import opened Oracle

  /** A gauge as rendered: its metric name together with its label values. */
  datatype MetricKey =
    | WindowProgressGauge
    | WindowSizeGauge
    | SlashWindowGauge
    | MinValidPerWindowGauge
    | SlashFractionGauge
    | VotePeriodGauge
    | SymbolsCountGauge
    | MissCounterGauge(valoper: string)
    | MissRateGauge(valoper: string)
    | NextWindowStartGauge(valoper: string)
    | FeederAccountGauge(valoper: string, feeder: string)
    | LastBlockVoteGauge(valoper: string)
    | AggregatedVotesGauge(asset: string)

  /**
   * A gauge value. Gauges hold float64 in the exporter; each case records the exact quantity
   * that is converted to float64.
   */
  datatype Value =
    | Count(n: nat)               // float64 of an unsigned integer
    | Decimal(d: Dec)             // Dec.MustFloat64()
    | Ratio(num: nat, den: nat)   // float64(num) / float64(den)
    | SecondsFromNow(s: int)      // UnixMilli of now + s seconds, in UTC; s is an int64 Duration

  type Snapshot = map<MetricKey, Value>

  /** The metric name as it appears in the exposition. */
  function Name(k: MetricKey): (n: string)
    ensures n != []
  {
    match k
    case WindowProgressGauge => "window_progress"
    case WindowSizeGauge => "window_size"
    case SlashWindowGauge => "slash_window"
    case MinValidPerWindowGauge => "min_valid_per_window"
    case SlashFractionGauge => "slash_fraction"
    case VotePeriodGauge => "vote_period"
    case SymbolsCountGauge => "symbols_count"
    case MissCounterGauge(_) => "miss_counter"
    case MissRateGauge(_) => "miss_rate"
    case NextWindowStartGauge(_) => "next_window_start"
    case FeederAccountGauge(_, _) => "feeder_account"
    case LastBlockVoteGauge(_) => "last_block_vote"
    case AggregatedVotesGauge(_) => "aggregated_votes"
  }

  /** The parts of the handler that write gauges: the sequential part and the four tasks it forks. */
  datatype Writer = General | MissCounterTask | FeederTask | PrevoteTask | VoteTask

  /** The four tasks that run concurrently after the foundation reads. */
  const ForkedTasks: seq<Writer> := [MissCounterTask, FeederTask, PrevoteTask, VoteTask]

  /** The only writer that ever sets gauge `k`. */
  function Owner(k: MetricKey): (w: Writer)
  {
    match k
    case MissCounterGauge(_) => MissCounterTask
    case MissRateGauge(_) => MissCounterTask
    case NextWindowStartGauge(_) => MissCounterTask
    case FeederAccountGauge(_, _) => FeederTask
    case LastBlockVoteGauge(_) => PrevoteTask
    case AggregatedVotesGauge(_) => VoteTask
    case _ => General
  }

  /** The metric names each writer sets. */
  function Names(w: Writer): (r: set<string>)
  {
    match w
    case General => {"window_progress", "window_size", "slash_window", "min_valid_per_window",
                     "slash_fraction", "vote_period", "symbols_count"}
    case MissCounterTask => {"miss_counter", "miss_rate", "next_window_start"}
    case FeederTask => {"feeder_account"}
    case PrevoteTask => {"last_block_vote"}
    case VoteTask => {"aggregated_votes"}
  }

  /** Every gauge's name belongs to its owner, and no two writers share a metric name. */
  lemma NamesPartitionWriters(k: MetricKey, w1: Writer, w2: Writer)
    ensures Name(k) in Names(Owner(k))
    ensures w1 != w2 ==> Names(w1) !! Names(w2)
  {
  }

  /** The gauges of `s` that writer `w` owns. */
  function OwnedBy(s: Snapshot, w: Writer): (r: Snapshot)
    ensures forall k :: k in r <==> k in s && Owner(k) == w
    ensures forall k :: k in r ==> r[k] == s[k]
  {
    map k | k in s && Owner(k) == w :: s[k]
  }

  /** Every key of `s` belongs to writer `w`. */
  ghost predicate OnlyOwnedBy(s: Snapshot, w: Writer)
  {
    forall k :: k in s ==> Owner(k) == w
  }
}
