/**
 * The exporter's `/metrics/general` request: validate the validator address, perform the two
 * foundation reads, set the general gauges, run the four per-validator tasks and render the
 * sink. A request either aborts with nothing rendered or renders a snapshot in which each
 * task that failed is simply absent.
 */
module Handler {
  import opened Wrappers
  import opened Uint64
  import opened Oracle
  import opened Metrics
  import opened Derivations

  /** What the handler gets from its caller besides the request: the configured block time and
      the bech32 parsing of validator operator addresses. */
  datatype Config = Config(blockTime: u64, parseValAddress: string -> Option<ValAddress>)

  datatype AbortReason = MalformedAddress | SlashWindowUnavailable | ParamsUnavailable | ZeroVotePeriod

  /** `Aborted` means nothing is rendered: no metrics and no body. */
  datatype Response = Aborted(reason: AbortReason) | Rendered(snapshot: Snapshot)

  /** The request-scoped values the tasks share once both foundation reads have succeeded. */
  datatype Foundation = Foundation(
    valoper: string,
    validator: ValAddress,
    windowProgress: u64,
    params: Params,
    windowSize: u64,
    blockTime: u64)

  /** The sequential part of the request, up to the fork. */
  datatype Stage = Stopped(reason: AbortReason) | Forked(foundation: Foundation)

  function Prepare(cfg: Config, valoper: string, chain: Chain): (r: Stage)
  {
    match cfg.parseValAddress(valoper)
    case None => Stopped(MalformedAddress)
    case Some(validator) =>
      match chain.slashWindow
      case Err(_) => Stopped(SlashWindowUnavailable)
      case Ok(sw) =>
        match chain.params
        case Err(_) => Stopped(ParamsUnavailable)
        case Ok(p) =>
          match WindowSizeFor(p)
          case None => Stopped(ZeroVotePeriod)
          case Some(ws) => Forked(Foundation(valoper, validator, sw.windowProgress, p, ws, cfg.blockTime))
  }

  /** The seven general gauges. */
  function GeneralEntries(f: Foundation): (r: Snapshot)
  {
    map[
      WindowProgressGauge := Count(f.windowProgress),
      WindowSizeGauge := Count(f.windowSize),
      SlashWindowGauge := Count(f.params.slashWindow),
      MinValidPerWindowGauge := Decimal(f.params.minValidPerWindow),
      SlashFractionGauge := Decimal(f.params.slashFraction),
      VotePeriodGauge := Count(f.params.votePeriod),
      SymbolsCountGauge := Count(|f.params.acceptList|)]
  }

  /** Miss counter, miss rate and next-window estimate: all three or none. */
  function MissCounterEntries(f: Foundation, read: Result<MissCounterResponse>): (r: Snapshot)
  {
    match read
    case Err(_) => map[]
    case Ok(m) =>
      map[
        MissCounterGauge(f.valoper) := Count(m.missCounter),
        MissRateGauge(f.valoper) := Ratio(m.missCounter, f.windowProgress),
        NextWindowStartGauge(f.valoper) :=
          SecondsFromNow(ToInt64(NextWindowSeconds(f.windowSize, f.windowProgress, f.blockTime, f.params.votePeriod)))]
  }

  /** The feeder's existence gauge, labelled with the delegated address. */
  function FeederEntries(f: Foundation, read: Result<FeederDelegationResponse>): (r: Snapshot)
  {
    match read
    case Err(_) => map[]
    case Ok(d) => map[FeederAccountGauge(f.valoper, d.feederAddr) := Count(1)]
  }

  /** The height of the last prevote, passed through. */
  function PrevoteEntries(f: Foundation, read: Result<AggregatePrevote>): (r: Snapshot)
  {
    match read
    case Err(_) => map[]
    case Ok(p) => map[LastBlockVoteGauge(f.valoper) := Count(p.submitBlock)]
  }

  /** Vote coverage of the accept list; nothing at all when the vote cannot be read. */
  function VoteEntries(f: Foundation, read: Result<AggregateVote>): (r: Snapshot)
  {
    match read
    case Err(_) => map[]
    case Ok(v) => VoteCoverage(f.params.acceptList, v.exchangeRateTuples)
  }

  /** What writer `w` contributes, given the chain's answers for the request's validator. */
  function TaskEntries(w: Writer, f: Foundation, chain: Chain): (r: Snapshot)
    ensures OnlyOwnedBy(r, w)
  {
    match w
    case General => GeneralEntries(f)
    case MissCounterTask => MissCounterEntries(f, chain.missCounter(f.validator))
    case FeederTask => FeederEntries(f, chain.feederDelegation(f.validator))
    case PrevoteTask => PrevoteEntries(f, chain.aggregatePrevote(f.validator))
    case VoteTask => VoteEntries(f, chain.aggregateVote(f.validator))
  }

  /** The sink after the writers in `order` have run one after another. */
  function RunTasks(order: seq<Writer>, f: Foundation, chain: Chain): (r: Snapshot)
  {
    if order == [] then map[]
    else RunTasks(order[..|order| - 1], f, chain) + TaskEntries(order[|order| - 1], f, chain)
  }

  /** The handler's writers in the order they start: the general gauges, then the fork. */
  const Writers: seq<Writer> := [General] + ForkedTasks

  /** The handler's outcome for one request. */
  function Handle(cfg: Config, valoper: string, chain: Chain): (r: Response)
  {
    match Prepare(cfg, valoper, chain)
    case Stopped(reason) => Aborted(reason)
    case Forked(f) => Rendered(RunTasks(Writers, f, chain))
  }

  // ---------------------------------------------------------------------------------------
  // The abort policy

  /**
   * A request renders exactly when the address parses, both foundation reads succeed and the
   * vote period is non-zero; otherwise the reason names the first check that failed.
   */
  lemma AbortPolicy(cfg: Config, valoper: string, chain: Chain)
    ensures var r := Handle(cfg, valoper, chain);
      && (r == Aborted(MalformedAddress) <==> cfg.parseValAddress(valoper).None?)
      && (r == Aborted(SlashWindowUnavailable) <==> cfg.parseValAddress(valoper).Some? && chain.slashWindow.Err?)
      && (r == Aborted(ParamsUnavailable) <==>
            cfg.parseValAddress(valoper).Some? && chain.slashWindow.Ok? && chain.params.Err?)
      && (r == Aborted(ZeroVotePeriod) <==>
            cfg.parseValAddress(valoper).Some? && chain.slashWindow.Ok? && chain.params.Ok?
            && chain.params.value.votePeriod == 0)
      && (r.Rendered? <==>
            cfg.parseValAddress(valoper).Some? && chain.slashWindow.Ok? && chain.params.Ok?
            && chain.params.value.votePeriod != 0)
  {
  }

  // ---------------------------------------------------------------------------------------
  // Isolation and order independence of the writers

  /** In the sink after `order`, a gauge is present exactly when its owner ran and wrote it. */
  lemma {:induction false} RunTasksAt(order: seq<Writer>, f: Foundation, chain: Chain, k: MetricKey)
    ensures k in RunTasks(order, f, chain) <==> Owner(k) in order && k in TaskEntries(Owner(k), f, chain)
    ensures k in RunTasks(order, f, chain) ==> RunTasks(order, f, chain)[k] == TaskEntries(Owner(k), f, chain)[k]
  {
    if order != [] {
      var last := order[|order| - 1];
      var init := order[..|order| - 1];
      assert order == init + [last];
      RunTasksAt(init, f, chain, k);
      assert Owner(k) in order <==> Owner(k) in init || Owner(k) == last;
    }
  }

  /** The gauges a run of `order` holds that belong to writer `w` are exactly what `w` wrote, if it ran. */
  lemma RunTasksOwnedBy(order: seq<Writer>, f: Foundation, chain: Chain, w: Writer)
    requires w in order
    ensures OwnedBy(RunTasks(order, f, chain), w) == TaskEntries(w, f, chain)
  {
    var s := RunTasks(order, f, chain);
    forall k | k in TaskEntries(w, f, chain) || k in OwnedBy(s, w)
      ensures k in OwnedBy(s, w) && k in TaskEntries(w, f, chain) && OwnedBy(s, w)[k] == TaskEntries(w, f, chain)[k]
    {
      RunTasksAt(order, f, chain, k);
    }
  }

  /**
   * Running the writers in any order gives the snapshot the handler renders: the tasks write
   * pairwise disjoint gauges, so the interleaving of the goroutines cannot matter.
   */
  lemma AnyOrderSameSnapshot(cfg: Config, valoper: string, chain: Chain, order: seq<Writer>)
    requires Handle(cfg, valoper, chain).Rendered?
    requires multiset(order) == multiset(Writers)
    ensures RunTasks(order, Prepare(cfg, valoper, chain).foundation, chain) == Handle(cfg, valoper, chain).snapshot
  {
    var f := Prepare(cfg, valoper, chain).foundation;
    var a, b := RunTasks(order, f, chain), RunTasks(Writers, f, chain);
    forall k ensures (k in a <==> k in b) && (k in a ==> a[k] == b[k]) {
      RunTasksAt(order, f, chain, k);
      RunTasksAt(Writers, f, chain, k);
      assert Owner(k) in order <==> Owner(k) in multiset(order);
      assert Owner(k) in Writers;
    }
  }

  /** Each writer's gauges in the rendered snapshot are exactly the ones it produced. */
  lemma SnapshotOwnedBy(cfg: Config, valoper: string, chain: Chain, w: Writer)
    requires Handle(cfg, valoper, chain).Rendered?
    ensures OwnedBy(Handle(cfg, valoper, chain).snapshot, w) == TaskEntries(w, Prepare(cfg, valoper, chain).foundation, chain)
  {
    assert w in Writers;
    RunTasksOwnedBy(Writers, Prepare(cfg, valoper, chain).foundation, chain, w);
  }

  /** The chain answers the read of writer `w` for validator `a` identically. */
  predicate SameRead(w: Writer, a: ValAddress, c1: Chain, c2: Chain)
  {
    match w
    case General => c1.slashWindow == c2.slashWindow && c1.params == c2.params
    case MissCounterTask => c1.missCounter(a) == c2.missCounter(a)
    case FeederTask => c1.feederDelegation(a) == c2.feederDelegation(a)
    case PrevoteTask => c1.aggregatePrevote(a) == c2.aggregatePrevote(a)
    case VoteTask => c1.aggregateVote(a) == c2.aggregateVote(a)
  }

  /**
   * Task isolation: when two chains agree on the foundation reads and on the read of task `w`,
   * the rendered gauges of `w` are the same whatever the other tasks' reads returned, failures
   * included.
   */
  lemma Isolation(cfg: Config, valoper: string, c1: Chain, c2: Chain, w: Writer)
    requires Handle(cfg, valoper, c1).Rendered?
    requires SameRead(General, cfg.parseValAddress(valoper).value, c1, c2)
    requires SameRead(w, cfg.parseValAddress(valoper).value, c1, c2)
    ensures Handle(cfg, valoper, c2).Rendered?
    ensures OwnedBy(Handle(cfg, valoper, c1).snapshot, w) == OwnedBy(Handle(cfg, valoper, c2).snapshot, w)
  {
    SnapshotOwnedBy(cfg, valoper, c1, w);
    SnapshotOwnedBy(cfg, valoper, c2, w);
  }

  // ---------------------------------------------------------------------------------------
  // What each writer contributes to a rendered snapshot

  /** The general gauges carry the foundation values, the window size being the truncated quotient. */
  lemma GeneralGauges(cfg: Config, valoper: string, chain: Chain)
    requires Handle(cfg, valoper, chain).Rendered?
    ensures var s := Handle(cfg, valoper, chain).snapshot;
      var p := chain.params.value;
      && OwnedBy(s, General).Keys == {WindowProgressGauge, WindowSizeGauge, SlashWindowGauge,
           MinValidPerWindowGauge, SlashFractionGauge, VotePeriodGauge, SymbolsCountGauge}
      && s[WindowProgressGauge] == Count(chain.slashWindow.value.windowProgress)
      && s[WindowSizeGauge].Count?
      && s[WindowSizeGauge].n * p.votePeriod <= p.slashWindow < s[WindowSizeGauge].n * p.votePeriod + p.votePeriod
      && s[SlashWindowGauge] == Count(p.slashWindow)
      && s[MinValidPerWindowGauge] == Decimal(p.minValidPerWindow)
      && s[SlashFractionGauge] == Decimal(p.slashFraction)
      && s[VotePeriodGauge] == Count(p.votePeriod)
      && s[SymbolsCountGauge] == Count(|p.acceptList|)
  {
    SnapshotOwnedBy(cfg, valoper, chain, General);
  }

  /**
   * miss_counter, miss_rate and next_window_start appear together, exactly when the miss
   * counter can be read; the estimate is the wrap-around seconds formula read as an int64.
   */
  lemma MissCounterGauges(cfg: Config, valoper: string, chain: Chain)
    requires Handle(cfg, valoper, chain).Rendered?
    ensures var s := Handle(cfg, valoper, chain).snapshot;
      var f := Prepare(cfg, valoper, chain).foundation;
      var read := chain.missCounter(cfg.parseValAddress(valoper).value);
      && (read.Err? ==> forall k :: k in s ==> Owner(k) != MissCounterTask)
      && (read.Ok? ==>
            && OwnedBy(s, MissCounterTask).Keys == {MissCounterGauge(valoper), MissRateGauge(valoper), NextWindowStartGauge(valoper)}
            && s[MissCounterGauge(valoper)] == Count(read.value.missCounter)
            && s[MissRateGauge(valoper)] == Ratio(read.value.missCounter, chain.slashWindow.value.windowProgress)
            && s[NextWindowStartGauge(valoper)] == SecondsFromNow(
                 ToInt64(((f.windowSize - f.windowProgress + 1) * cfg.blockTime * f.params.votePeriod) % MOD)))
  {
    SnapshotOwnedBy(cfg, valoper, chain, MissCounterTask);
  }

  /** Exactly one feeder_account gauge, valued 1 and labelled with the feeder, when the delegation can be read; none otherwise. */
  lemma FeederGauge(cfg: Config, valoper: string, chain: Chain)
    requires Handle(cfg, valoper, chain).Rendered?
    ensures var s := Handle(cfg, valoper, chain).snapshot;
      var read := chain.feederDelegation(cfg.parseValAddress(valoper).value);
      && (read.Err? ==> forall k :: k in s ==> !k.FeederAccountGauge?)
      && (read.Ok? ==>
            && (forall k :: k in s && k.FeederAccountGauge? <==> k == FeederAccountGauge(valoper, read.value.feederAddr))
            && s[FeederAccountGauge(valoper, read.value.feederAddr)] == Count(1))
  {
    var s := Handle(cfg, valoper, chain).snapshot;
    var f := Prepare(cfg, valoper, chain).foundation;
    assert f.validator == cfg.parseValAddress(valoper).value && f.valoper == valoper;
    SnapshotOwnedBy(cfg, valoper, chain, FeederTask);
    var own := OwnedBy(s, FeederTask);
    assert own == FeederEntries(f, chain.feederDelegation(f.validator));
    forall k | k in s && k.FeederAccountGauge? ensures k in own {
    }
  }

  /** last_block_vote is the prevote's submit block, unchanged, when the prevote can be read; absent otherwise. */
  lemma PrevoteGauge(cfg: Config, valoper: string, chain: Chain)
    requires Handle(cfg, valoper, chain).Rendered?
    ensures var s := Handle(cfg, valoper, chain).snapshot;
      var read := chain.aggregatePrevote(cfg.parseValAddress(valoper).value);
      && (read.Err? ==> forall k :: k in s ==> !k.LastBlockVoteGauge?)
      && (read.Ok? ==>
            && (forall k :: k in s && k.LastBlockVoteGauge? <==> k == LastBlockVoteGauge(valoper))
            && s[LastBlockVoteGauge(valoper)] == Count(read.value.submitBlock))
  {
    var s := Handle(cfg, valoper, chain).snapshot;
    var f := Prepare(cfg, valoper, chain).foundation;
    assert f.validator == cfg.parseValAddress(valoper).value && f.valoper == valoper;
    SnapshotOwnedBy(cfg, valoper, chain, PrevoteTask);
    var own := OwnedBy(s, PrevoteTask);
    assert own == PrevoteEntries(f, chain.aggregatePrevote(f.validator));
    forall k | k in s && k.LastBlockVoteGauge? ensures k in own {
    }
  }

  /**
   * Vote coverage as rendered: no aggregated_votes gauge at all when the vote cannot be read;
   * otherwise one per accepted symbol and no other, 0 when some submitted tuple matches the
   * symbol up to case and 1 when none does.
   */
  lemma VoteGauges(cfg: Config, valoper: string, chain: Chain, k: MetricKey)
    requires Handle(cfg, valoper, chain).Rendered?
    ensures var s := Handle(cfg, valoper, chain).snapshot;
      var acceptList := chain.params.value.acceptList;
      var read := chain.aggregateVote(cfg.parseValAddress(valoper).value);
      && (read.Err? && k.AggregatedVotesGauge? ==> k !in s)
      && (read.Ok? && k.AggregatedVotesGauge? ==>
            && (k in s <==> exists i :: 0 <= i < |acceptList| && acceptList[i].symbolDenom == k.asset)
            && (k in s ==> (s[k] == Count(0) <==> Voted(k.asset, read.value.exchangeRateTuples)))
            && (k in s ==> (s[k] == Count(1) <==> !Voted(k.asset, read.value.exchangeRateTuples))))
  {
    SnapshotOwnedBy(cfg, valoper, chain, VoteTask);
    var read := chain.aggregateVote(cfg.parseValAddress(valoper).value);
    if read.Ok? {
      VoteCoverageMeaning(chain.params.value.acceptList, read.value.exchangeRateTuples, k);
    }
  }

  // ---------------------------------------------------------------------------------------
  // The handler as it runs

  lemma RunTasksSnoc(order: seq<Writer>, w: Writer, f: Foundation, chain: Chain)
    ensures RunTasks(order + [w], f, chain) == RunTasks(order, f, chain) + TaskEntries(w, f, chain)
  {
    assert (order + [w])[..|order|] == order;
  }

  /** The miss-counter goroutine: read the counter, then set the counter, the rate and the estimate. */
  method MissCounterTaskBody(f: Foundation, chain: Chain, sink: Snapshot) returns (out: Snapshot)
    ensures out == sink + TaskEntries(MissCounterTask, f, chain)
  {
    out := sink;
    var missCounterResponse := chain.missCounter(f.validator);
    if missCounterResponse.Err? {
      return;
    }
    var missCounter := missCounterResponse.value.missCounter;
    out := out[MissCounterGauge(f.valoper) := Count(missCounter)];
    out := out[MissRateGauge(f.valoper) := Ratio(missCounter, f.windowProgress)];
    var seconds := NextWindowSeconds(f.windowSize, f.windowProgress, f.blockTime, f.params.votePeriod);
    out := out[NextWindowStartGauge(f.valoper) := SecondsFromNow(ToInt64(seconds))];
  }

  /** The feeder-delegation goroutine. */
  method FeederTaskBody(f: Foundation, chain: Chain, sink: Snapshot) returns (out: Snapshot)
    ensures out == sink + TaskEntries(FeederTask, f, chain)
  {
    out := sink;
    var response := chain.feederDelegation(f.validator);
    if response.Err? {
      return;
    }
    out := out[FeederAccountGauge(f.valoper, response.value.feederAddr) := Count(1)];
  }

  /** The aggregate-prevote goroutine. */
  method PrevoteTaskBody(f: Foundation, chain: Chain, sink: Snapshot) returns (out: Snapshot)
    ensures out == sink + TaskEntries(PrevoteTask, f, chain)
  {
    out := sink;
    var response := chain.aggregatePrevote(f.validator);
    if response.Err? {
      return;
    }
    out := out[LastBlockVoteGauge(f.valoper) := Count(response.value.submitBlock)];
  }

  /** The aggregate-vote goroutine. */
  method VoteTaskBody(f: Foundation, chain: Chain, sink: Snapshot) returns (out: Snapshot)
    ensures out == sink + TaskEntries(VoteTask, f, chain)
  {
    out := sink;
    var response := chain.aggregateVote(f.validator);
    if response.Err? {
      return;
    }
    out := CollectVotes(out, f.params.acceptList, response.value.exchangeRateTuples);
  }

  /**
   * One request, step by step: parse the address, read the slash window and set its gauge,
   * read the params, divide, set the remaining general gauges, then run the four tasks one
   * after another into the same sink. `issued` records the remote queries in the order sent.
   */
  method Serve(cfg: Config, valoper: string, chain: Chain) returns (resp: Response, issued: seq<Query>)
    ensures resp == Handle(cfg, valoper, chain)
    ensures resp == Aborted(MalformedAddress) ==> issued == []
    ensures resp == Aborted(SlashWindowUnavailable) ==> issued == [SlashWindowQuery]
    ensures resp == Aborted(ParamsUnavailable) || resp == Aborted(ZeroVotePeriod) ==> issued == [SlashWindowQuery, ParamsQuery]
    ensures resp.Rendered? ==>
      var a := cfg.parseValAddress(valoper).value;
      issued == [SlashWindowQuery, ParamsQuery, MissCounterQuery(a), FeederDelegationQuery(a),
                 AggregatePrevoteQuery(a), AggregateVoteQuery(a)]
  {
    issued := [];
    var parsed := cfg.parseValAddress(valoper);
    if parsed.None? {
      resp := Aborted(MalformedAddress);
      return;
    }
    var validator := parsed.value;
    var sink: Snapshot := map[];

    issued := issued + [SlashWindowQuery];
    var slashWindowResponse := chain.slashWindow;
    if slashWindowResponse.Err? {
      resp := Aborted(SlashWindowUnavailable);
      return;
    }
    var windowProgress := slashWindowResponse.value.windowProgress;
    sink := sink[WindowProgressGauge := Count(windowProgress)];

    issued := issued + [ParamsQuery];
    var paramsResponse := chain.params;
    if paramsResponse.Err? {
      resp := Aborted(ParamsUnavailable);
      return;
    }
    var params := paramsResponse.value;
    if params.votePeriod == 0 {
      resp := Aborted(ZeroVotePeriod);
      return;
    }
    var windowSize := Div(params.slashWindow, params.votePeriod);
    sink := sink[WindowSizeGauge := Count(windowSize)];
    sink := sink[SlashWindowGauge := Count(params.slashWindow)];
    sink := sink[MinValidPerWindowGauge := Decimal(params.minValidPerWindow)];
    sink := sink[SlashFractionGauge := Decimal(params.slashFraction)];
    sink := sink[VotePeriodGauge := Count(params.votePeriod)];
    sink := sink[SymbolsCountGauge := Count(|params.acceptList|)];

    var f := Foundation(valoper, validator, windowProgress, params, windowSize, cfg.blockTime);
    assert Prepare(cfg, valoper, chain) == Forked(f);
    ghost var ran: seq<Writer> := [General];
    assert sink == RunTasks(ran, f, chain) by {
      RunTasksSnoc([], General, f, chain);
      assert [] + [General] == ran;
    }

    issued := issued + [MissCounterQuery(validator)];
    sink := MissCounterTaskBody(f, chain, sink);
    RunTasksSnoc(ran, MissCounterTask, f, chain);
    ran := ran + [MissCounterTask];

    issued := issued + [FeederDelegationQuery(validator)];
    sink := FeederTaskBody(f, chain, sink);
    RunTasksSnoc(ran, FeederTask, f, chain);
    ran := ran + [FeederTask];

    issued := issued + [AggregatePrevoteQuery(validator)];
    sink := PrevoteTaskBody(f, chain, sink);
    RunTasksSnoc(ran, PrevoteTask, f, chain);
    ran := ran + [PrevoteTask];

    issued := issued + [AggregateVoteQuery(validator)];
    sink := VoteTaskBody(f, chain, sink);
    RunTasksSnoc(ran, VoteTask, f, chain);
    ran := ran + [VoteTask];
    assert ran == Writers;

    resp := Rendered(sink);
  }
}
