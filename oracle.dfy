/**
 * The oracle module's query responses, reduced to the fields the handler reads, and the
 * chain node as a source of read outcomes.
 */
module Oracle {
  import opened Wrappers
  import opened Uint64

  /** A fixed-point decimal as the chain sends it (an integer scaled by 10^18); passed through opaquely. */
  datatype Dec = Dec(scaled: int)

  /** One entry of the accept list. Only `symbolDenom` is used by the handler. */
  datatype Denom = Denom(baseDenom: string, symbolDenom: string, exponent: nat)

  datatype Params = Params(
    slashWindow: u64,
    votePeriod: u64,
    minValidPerWindow: Dec,
    slashFraction: Dec,
    acceptList: seq<Denom>)

  datatype SlashWindowResponse = SlashWindowResponse(windowProgress: u64)

  datatype MissCounterResponse = MissCounterResponse(missCounter: u64)

  datatype FeederDelegationResponse = FeederDelegationResponse(feederAddr: string)

  datatype AggregatePrevote = AggregatePrevote(hash: string, voter: string, submitBlock: u64)

  datatype ExchangeRateTuple = ExchangeRateTuple(denom: string, exchangeRate: Dec)

  datatype AggregateVote = AggregateVote(exchangeRateTuples: seq<ExchangeRateTuple>, voter: string)

  /** A validator operator address as parsed from its bech32 form. */
  datatype ValAddress = ValAddress(bytes: seq<int>)

  /**
   * What the node answers to each query of one request. The two foundation reads take no
   * argument; the four per-validator reads are answered for the address they are given.
   */
  datatype Chain = Chain(
    slashWindow: Result<SlashWindowResponse>,
    params: Result<Params>,
    missCounter: ValAddress -> Result<MissCounterResponse>,
    feederDelegation: ValAddress -> Result<FeederDelegationResponse>,
    aggregatePrevote: ValAddress -> Result<AggregatePrevote>,
    aggregateVote: ValAddress -> Result<AggregateVote>)

  /** The remote queries a request can issue, in the order the handler issues them. */
  datatype Query =
    | SlashWindowQuery
    | ParamsQuery
    | MissCounterQuery(validator: ValAddress)
    | FeederDelegationQuery(validator: ValAddress)
    | AggregatePrevoteQuery(validator: ValAddress)
    | AggregateVoteQuery(validator: ValAddress)
}
