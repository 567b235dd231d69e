# Oracle exporter: the general-metrics request, modelled in Dafny

The exporter serves one request type, `/metrics/general?valoper=V`. It reports the
oracle-voting health of validator `V` as a per-request set of gauges. `GeneralHandler`
(general.go) parses the validator operator address. It then reads the slash-window
progress and the oracle params one after the other, and sets seven general gauges. Next it
forks four goroutines. Each reads one per-validator resource (miss counter, feeder
delegation, aggregate prevote, aggregate vote) and derives its own gauges. The handler
waits for all four and renders the registry.

This project models which gauges one request produces and with which values, given the
outcomes of the remote reads:

- `wrappers.dfy`: `Option` and `Result` (`Ok` or `Err`) for read outcomes.
- `uint64.dfy`: Go `uint64` arithmetic. Subtraction, addition and multiplication wrap modulo
  2^64. Division needs a non-zero divisor.
- `oracle.dfy`: the query responses. A few fields the handler never reads are kept to show
  each message's shape (a denom's base denom and exponent, a prevote's hash and voter, a
  tuple's rate, a vote's voter). The handler reads only the window progress, the params, the
  miss counter, the feeder address, the submit block and the tuples' denoms. A `Chain`
  gives the answer to every query. The two foundation reads are plain `Result`s. The four
  per-validator reads are functions of the address they are asked about.
- `metrics.dfy`: gauge keys (metric name plus label values), gauge values, a `Snapshot` as a
  `map`, and which writer owns each gauge. The writers are the general part and the four
  tasks.
- `fold.dfy`: case-insensitive comparison (`strings.EqualFold`) as ASCII case folding.
- `derivations.dfy`: the window size, the seconds until the next window, and vote coverage.
  Vote coverage has a reference definition and an imperative nested loop proved equal to
  it.
- `handler.dfy`: `Handle`, a pure function from the request and the chain's answers to a
  `Response`. A `Response` is `Aborted(reason)` (nothing rendered) or `Rendered(snapshot)`.
  `Serve` is the handler written step by step: early returns, a local sink updated gauge by
  gauge, and the four task bodies run in sequence. It is proved equal to `Handle`, and it
  also returns the queries it sent.

Design points:

- The four goroutines write pairwise disjoint gauges, so `Serve` runs them in a fixed
  order. `AnyOrderSameSnapshot` proves that every order gives the same snapshot.
- The registry is created fresh per request, so the sink is a local `map`.
- A Go integer division by zero panics. `net/http` recovers the panic, and nothing is
  written to the response. The model therefore treats `VotePeriod == 0` as
  `Aborted(ZeroVotePeriod)`.
- The configuration that `Serve` and `Handle` receive:
  - `blockTime`, a command-line value;
  - the bech32 parser, as a function from the query string to an optional address. The
    parsed address is what the per-validator queries are sent for. The gauges are labelled
    with the raw query string, as in the source.

Three behaviours of the code that the model keeps as written:

- Miss rate: the code divides the miss counter by the window progress with no guard for a
  progress of 0 (general.go:246). The model records the two operands.
- Next-window estimate: the code computes the seconds in `uint64`, so a window progress past
  `windowSize + 1` wraps the block count (general.go:263). `NextWindowSecondsExact` says
  exactly when the wrapped value equals the true product, for a non-zero vote period: the
  block count is not negative or the block time is 0, and the product fits in 64 bits.
  `time.Duration(seconds)` then reads the seconds as an int64 (general.go:272). So a wrapped
  estimate whose true value fits in int64 is that negative number of seconds, and
  next_window_start lands in the past (`NextWindowOffset`).
- Vote coverage: the code returns early when the aggregate vote cannot be read, before the
  loop, so no `aggregated_votes` gauge is written at all (general.go:354-360).

## Model

| member | source | states |
|---|---|---|
| Uint64.Sub | general.go:263 | uint64 subtraction: the true difference when it is not negative, otherwise the difference plus 2^64 |
| Uint64.Add | general.go:263 | uint64 addition: the true sum when it fits, otherwise the sum minus 2^64 |
| Uint64.Mul | general.go:263 | uint64 multiplication: the true product when it fits; always congruent to it modulo 2^64 |
| Uint64.ToInt64 | general.go:272 | `time.Duration(seconds)`: the int64 reading lies in [-2^63, 2^63) and is congruent to the uint64 value, which reducing it modulo 2^64 gives back |
| Uint64.Div | general.go:200 | needs a non-zero divisor; the result is the truncated quotient (r*b <= a < r*b + b) |
| Derivations.WindowSizeFor | general.go:200 | `SlashWindow / VotePeriod`: undefined (the panic) exactly when VotePeriod is 0, otherwise the truncating quotient |
| Derivations.NextWindowSeconds | general.go:263 | the left-to-right uint64 evaluation of `(windowSize - WindowProgress + 1) * blockTime * VotePeriod` equals the true product modulo 2^64 |
| Derivations.NextWindowSecondsExact | general.go:263 | the uint64 seconds equal the true product iff (WindowProgress <= windowSize + 1 or blockTime == 0) and the product is below 2^64 |
| Derivations.NextWindowOffset | general.go:263-272 | for a non-zero vote period, the int64 seconds that `time.Duration` reads equal the true product whenever it fits in int64; with the progress past windowSize + 1 and a non-zero block time it is negative, so the estimate lies in the past |
| Derivations.Voted | general.go:367-380 | definition, no contract: some submitted tuple's denom equals the symbol under EqualFold; used by `MissFlag` and stated in `VoteCoverageMeaning` |
| Derivations.MissFlag | general.go:367-380 | the aggregated_votes value is 0 or 1 (0 iff `Voted`, as `VoteCoverageMeaning` states) |
| Derivations.Symbols | general.go:367 | exactly the symbol denoms of the accept list |
| Derivations.VoteCoverage | general.go:367-380 | definition, no contract: the reference coverage map, one gauge per accepted symbol; its meaning is `VoteCoverageMeaning`, and `CollectVotes` is proved equal to it |
| Derivations.VoteCoverageMeaning | general.go:367-380 | the coverage gauges are exactly one `aggregated_votes{asset}` per accept-list symbol; the value is 0 iff some tuple's denom matches the symbol under EqualFold, else 1 |
| Derivations.CollectVotes | general.go:367-380 | the nested loop with the `isContains` flag and `break` leaves the sink as before, overridden by the reference coverage gauges |
| Derivations.ArithmeticExamples | general.go:200-263 | 100/30 = 3; (3-1+1)*6*30 = 540; a progress past the window wraps to 2^64 - 180, which as an int64 Duration is -180 |
| Derivations.MissFlagExample | general.go:367-380 | a vote for "atom" gives the flag 0 to ATOM (matched up to case) and 1 to UMEE |
| Fold.FoldChar | general.go:371 | folding never yields an upper-case ASCII letter and leaves lower-case letters alone |
| Fold.EqualFold | general.go:371 | definition, no contract: same length and pointwise equal after `FoldChar`; its laws are `EqualFoldIsEquivalence`, `EqualFoldRefinesEquality` and `EqualFoldExample` |
| Fold.FoldCharIdempotent | general.go:371 | folding twice is folding once |
| Fold.FoldCharIdentifiesCasesOnly | general.go:371 | two characters fold alike only when they are equal or are the two cases of one letter |
| Fold.EqualFoldIsEquivalence | general.go:371 | EqualFold is reflexive, symmetric and transitive |
| Fold.EqualFoldRefinesEquality | general.go:371 | equal strings are EqualFold; EqualFold strings have equal length |
| Fold.EqualFoldExample | general.go:371 | "ATOM" matches "atom"; "UMEE" does not |
| Metrics.Name | general.go:36-143 | every gauge key has a non-empty metric name; the names per writer are partitioned as `NamesPartitionWriters` states |
| Metrics.Owner | general.go:237-379 | definition, no contract: the goroutine (or the sequential part) that sets each gauge; `NamesPartitionWriters`, `TaskEntries` and `SnapshotOwnedBy` state its properties |
| Metrics.NamesPartitionWriters | general.go:237-379 | every gauge's metric name belongs to its owning writer, and no two writers share a metric name |
| Handler.Prepare | general.go:25-200 | definition, no contract: the sequential steps up to the fork, stopping at the first failure and otherwise computing the window size; stated by `AbortPolicy` and `GeneralGauges` |
| Handler.GeneralEntries | general.go:179-206 | definition, no contract: the seven general gauges; stated by `GeneralGauges` |
| Handler.MissCounterEntries | general.go:237-272 | definition, no contract: the miss-counter goroutine's three gauges or none; stated by `MissCounterGauges` |
| Handler.FeederEntries | general.go:302-305 | definition, no contract: the feeder_account gauge or none; stated by `FeederGauge` |
| Handler.PrevoteEntries | general.go:335-337 | definition, no contract: the last_block_vote gauge or none; stated by `PrevoteGauge` |
| Handler.VoteEntries | general.go:354-380 | definition, no contract: the coverage gauges, or none when the vote read fails; stated by `VoteGauges` |
| Handler.RunTasks | general.go:208-383 | definition, no contract: the writers run one after another into one sink; stated by `RunTasksAt`, `RunTasksOwnedBy`, `RunTasksSnoc` and `AnyOrderSameSnapshot` |
| Handler.Handle | general.go:18-392 | definition, no contract: the request's outcome, aborted or the rendered sink; stated by `AbortPolicy`, `RunTasksAt`, `AnyOrderSameSnapshot`, `Isolation` and the per-task gauge lemmas, and `Serve` is proved equal to it |
| Handler.TaskEntries | general.go:200-380 | every gauge a writer produces is owned by that writer |
| Handler.AbortPolicy | general.go:25-200 | the request renders iff the address parses, both foundation reads succeed and VotePeriod != 0; otherwise the named first failing step is the reason, and nothing is rendered (window_progress, set at line 179, included) |
| Handler.RunTasksAt | general.go:208-383 | after any sequence of writers, a gauge is present iff its owner ran and wrote it, with the owner's value |
| Handler.RunTasksOwnedBy | general.go:208-383 | the gauges of one writer after a run that includes it are exactly that writer's output |
| Handler.AnyOrderSameSnapshot | general.go:208-383 | running the writers in any permutation gives the rendered snapshot |
| Handler.SnapshotOwnedBy | general.go:208-383 | in a rendered snapshot, each writer's gauges are exactly what it produced |
| Handler.Isolation | general.go:208-383 | with equal foundation reads and equal reads for task w, w's gauges are identical whatever the other tasks' reads returned |
| Handler.GeneralGauges | general.go:179-206 | the seven general gauges: window_progress, window_size (truncated SlashWindow/VotePeriod), slash_window, min_valid_per_window, slash_fraction, vote_period, symbols_count = accept-list length |
| Handler.MissCounterGauges | general.go:219-272 | miss-counter failure: no miss_counter, miss_rate or next_window_start; success: exactly those three, with the counter, counter/progress, and the wrapped seconds formula read as an int64 offset |
| Handler.FeederGauge | general.go:285-305 | delegation read ok: exactly one feeder_account{valoper, feeder} gauge, value 1; failure: none |
| Handler.PrevoteGauge | general.go:318-337 | prevote read ok: last_block_vote{valoper} = SubmitBlock, unchanged and the only such gauge; failure: absent |
| Handler.VoteGauges | general.go:350-380 | vote read failure: no aggregated_votes gauge at all; success: one per accept-list symbol and no other asset, 0 iff matched under EqualFold, else 1 |
| Handler.RunTasksSnoc | general.go:208-383 | running one more writer adds its gauges on top of the sink |
| Handler.MissCounterTaskBody | general.go:211-273 | the miss-counter goroutine adds exactly the miss-counter task's gauges to the sink |
| Handler.FeederTaskBody | general.go:276-306 | the feeder goroutine adds exactly the feeder task's gauge to the sink |
| Handler.PrevoteTaskBody | general.go:309-338 | the prevote goroutine adds exactly the prevote task's gauge to the sink |
| Handler.VoteTaskBody | general.go:341-381 | the vote goroutine adds exactly the coverage gauges, or nothing when the read fails |
| Handler.Serve | general.go:18-392 | the step-by-step handler yields `Handle`'s response. It sends no query for a malformed address, and only SlashWindow when that read fails. It sends SlashWindow and Params when Params fails or VotePeriod is 0, and all six queries when it renders |

## Left out

- Prometheus gauge and registry construction and `promhttp` rendering (general.go:36-159,
  385-386): foreign library calls. The rendered registry is the `Snapshot` map.
- The gRPC clients (general.go:165, 219, 284, 317, 349): foreign calls. Each read is an
  input outcome of the `Chain` record.
- Goroutines and `sync.WaitGroup` (general.go:208-383): the tasks are run in sequence.
  Their writes are disjoint, which `AnyOrderSameSnapshot` makes precise.
- Floating point. Gauge values record the exact quantity converted to float64:
  - `float64(uint64)` rounding above 2^53 is not modelled;
  - the miss rate is kept as a numerator/denominator pair, so the Inf/NaN of a zero window
    progress (general.go:246) is not computed;
  - `MustFloat64` of the decimal params (general.go:203-204) is an opaque pass-through. Its
    panic on a decimal out of float64 range is not modelled.
- Time: `time.Now`, `UTC` and `UnixMilli` (general.go:272). The model stops at the signed
  offset in seconds (`SecondsFromNow(ToInt64(seconds))`). When the block count is negative,
  the block time is non-zero and the true product is at least -2^63 (`NextWindowOffset`),
  the signed conversion puts the estimated start in the past. For larger magnitudes the
  wrapped reading can be any int64, the future and now included. It is never clamped to zero.
  The int64 nanosecond overflow of `time.Duration(seconds) * time.Second`, for offsets beyond
  about 292 years, is not modelled.
- Logging, uuid request ids and timing (general.go:19-23 and the logger calls).
- Bech32 parsing (general.go:26): an opaque function in `Config`.
- Fold.EqualFold: ASCII case folding only. Go's `strings.EqualFold` also folds non-ASCII
  letters, for example the Kelvin sign with `k`. Those matches are not modelled.
- The constant labels attached to every gauge (`ConstLabels`, declared at main.go:29 and
  never assigned in main.go or general.go): the same for every gauge, so it is omitted from
  the keys.
- main.go: flag and config plumbing, gRPC dialing, the TLS choice by port and the HTTP
  listener. main.go is not part of this model.
