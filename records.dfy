/**
 * The stored records of the in-memory store, the insert payloads `create*` receives and the
 * partial payloads `update*` spreads over a stored record.
 *
 * Decimal columns (amount, price, change and so on) hold decimal strings in the store; the
 * model keeps their value as a `real`. Timestamps are instants (an `int`), supplied by the
 * caller as `now`. JSON columns other than `simulationData` are opaque text.
 */
module Records {
  import opened Wrappers
  import opened Series

  // ---------------------------------------------------------------- users

  datatype User = User(
    id: int,
    username: string,
    password: string,
    walletAddress: Option<string>,
    email: Option<string>)

  datatype UserInsert = UserInsert(
    username: string,
    password: string,
    walletAddress: Option<string>,
    email: Option<string>)

  /** `{ ...user, id }`. */
  function NewUser(u: UserInsert, id: int): (r: User)
    ensures r.id == id && r.username == u.username && r.walletAddress == u.walletAddress
  {
    User(id, u.username, u.password, u.walletAddress, u.email)
  }

  // ---------------------------------------------------------------- positions

  datatype Position = Position(
    id: int,
    userId: Option<int>,
    asset: string,
    ticker: string,
    amount: real,
    value: real,
    price: real,
    change24h: real,
    contractAddress: Option<string>,
    createdAt: int,
    updatedAt: int)

  datatype PositionInsert = PositionInsert(
    userId: Option<int>,
    asset: string,
    ticker: string,
    amount: real,
    value: real,
    price: real,
    change24h: real,
    contractAddress: Option<string>)

  /** A partial position: each field is either supplied (Some) or absent (None). */
  datatype PositionPatch = PositionPatch(
    userId: Option<Option<int>>,
    asset: Option<string>,
    ticker: Option<string>,
    amount: Option<real>,
    value: Option<real>,
    price: Option<real>,
    change24h: Option<real>,
    contractAddress: Option<Option<string>>)

  const NoPositionChange := PositionPatch(None, None, None, None, None, None, None, None)

  /** `{ ...position, id, createdAt: now, updatedAt: now }`. */
  function NewPosition(p: PositionInsert, id: int, now: int): (r: Position)
    ensures r.id == id && r.createdAt == now && r.updatedAt == now
    ensures r.userId == p.userId && r.asset == p.asset && r.contractAddress == p.contractAddress
  {
    Position(id, p.userId, p.asset, p.ticker, p.amount, p.value, p.price, p.change24h,
             p.contractAddress, now, now)
  }

  /** `{ ...existing, ...patch, updatedAt: now }`. */
  function MergePosition(p: Position, q: PositionPatch, now: int): (r: Position)
    ensures r.id == p.id && r.createdAt == p.createdAt && r.updatedAt == now
    ensures q == NoPositionChange ==> r == p.(updatedAt := now)
  {
    Position(p.id, Pick(q.userId, p.userId), Pick(q.asset, p.asset), Pick(q.ticker, p.ticker),
             Pick(q.amount, p.amount), Pick(q.value, p.value), Pick(q.price, p.price),
             Pick(q.change24h, p.change24h), Pick(q.contractAddress, p.contractAddress),
             p.createdAt, now)
  }

  /** Two spreads in a row: the later one wins on every field it supplies. */
  function ThenPosition(q1: PositionPatch, q2: PositionPatch): PositionPatch
  {
    PositionPatch(Then(q1.userId, q2.userId), Then(q1.asset, q2.asset), Then(q1.ticker, q2.ticker),
                  Then(q1.amount, q2.amount), Then(q1.value, q2.value), Then(q1.price, q2.price),
                  Then(q1.change24h, q2.change24h), Then(q1.contractAddress, q2.contractAddress))
  }

  /** The field a second spread leaves: its own when supplied, else the first spread's. */
  function Then<T>(first: Option<T>, second: Option<T>): Option<T>
  {
    if second.Some? then second else first
  }

  /** Applying the same patch twice is applying it once. */
  lemma MergePositionIdempotent(p: Position, q: PositionPatch, t1: int, t2: int)
    ensures MergePosition(MergePosition(p, q, t1), q, t2) == MergePosition(p, q, t2)
  {
  }

  /** Two successive updates are one update with the combined patch. */
  lemma MergePositionTwice(p: Position, q1: PositionPatch, q2: PositionPatch, t1: int, t2: int)
    ensures MergePosition(MergePosition(p, q1, t1), q2, t2) == MergePosition(p, ThenPosition(q1, q2), t2)
  {
  }

  /** A patch supplying every field of an insert turns the record into that insert's record. */
  lemma MergePositionFull(p: Position, ins: PositionInsert, now: int)
    ensures var q := PositionPatch(Some(ins.userId), Some(ins.asset), Some(ins.ticker), Some(ins.amount),
                                   Some(ins.value), Some(ins.price), Some(ins.change24h),
                                   Some(ins.contractAddress));
      MergePosition(p, q, now) == NewPosition(ins, p.id, now).(createdAt := p.createdAt)
  {
  }

  // ---------------------------------------------------------------- smart contracts

  datatype SmartContract = SmartContract(
    id: int,
    userId: Option<int>,
    name: string,
    contractAddress: string,
    status: string,
    details: Option<string>,
    createdAt: int,
    updatedAt: int)

  datatype SmartContractInsert = SmartContractInsert(
    userId: Option<int>,
    name: string,
    contractAddress: string,
    status: string,
    details: Option<string>)

  datatype SmartContractPatch = SmartContractPatch(
    userId: Option<Option<int>>,
    name: Option<string>,
    contractAddress: Option<string>,
    status: Option<string>,
    details: Option<Option<string>>)

  const NoContractChange := SmartContractPatch(None, None, None, None, None)

  function NewSmartContract(c: SmartContractInsert, id: int, now: int): (r: SmartContract)
    ensures r.id == id && r.createdAt == now && r.updatedAt == now && r.userId == c.userId
  {
    SmartContract(id, c.userId, c.name, c.contractAddress, c.status, c.details, now, now)
  }

  function MergeSmartContract(c: SmartContract, q: SmartContractPatch, now: int): (r: SmartContract)
    ensures r.id == c.id && r.createdAt == c.createdAt && r.updatedAt == now
    ensures q == NoContractChange ==> r == c.(updatedAt := now)
  {
    SmartContract(c.id, Pick(q.userId, c.userId), Pick(q.name, c.name),
                  Pick(q.contractAddress, c.contractAddress), Pick(q.status, c.status),
                  Pick(q.details, c.details), c.createdAt, now)
  }

  lemma MergeSmartContractIdempotent(c: SmartContract, q: SmartContractPatch, t1: int, t2: int)
    ensures MergeSmartContract(MergeSmartContract(c, q, t1), q, t2) == MergeSmartContract(c, q, t2)
  {
  }

  // ---------------------------------------------------------------- API integrations

  datatype ApiIntegration = ApiIntegration(
    id: int,
    userId: Option<int>,
    name: string,
    apiKey: Option<string>,
    apiUrl: Option<string>,
    description: Option<string>,
    status: string,
    lastSynced: Option<int>,
    createdAt: int,
    updatedAt: int)

  datatype ApiIntegrationInsert = ApiIntegrationInsert(
    userId: Option<int>,
    name: string,
    apiKey: Option<string>,
    apiUrl: Option<string>,
    description: Option<string>,
    status: string)

  datatype ApiIntegrationPatch = ApiIntegrationPatch(
    userId: Option<Option<int>>,
    name: Option<string>,
    apiKey: Option<Option<string>>,
    apiUrl: Option<Option<string>>,
    description: Option<Option<string>>,
    status: Option<string>)

  const NoIntegrationChange := ApiIntegrationPatch(None, None, None, None, None, None)

  /** A new integration counts as synced at creation. */
  function NewApiIntegration(a: ApiIntegrationInsert, id: int, now: int): (r: ApiIntegration)
    ensures r.id == id && r.lastSynced == Some(now) && r.createdAt == now && r.updatedAt == now
    ensures r.userId == a.userId
  {
    ApiIntegration(id, a.userId, a.name, a.apiKey, a.apiUrl, a.description, a.status, Some(now), now, now)
  }

  /** An update refreshes `updatedAt` only: `lastSynced` keeps its value. */
  function MergeApiIntegration(a: ApiIntegration, q: ApiIntegrationPatch, now: int): (r: ApiIntegration)
    ensures r.id == a.id && r.createdAt == a.createdAt && r.updatedAt == now && r.lastSynced == a.lastSynced
    ensures q == NoIntegrationChange ==> r == a.(updatedAt := now)
  {
    ApiIntegration(a.id, Pick(q.userId, a.userId), Pick(q.name, a.name), Pick(q.apiKey, a.apiKey),
                   Pick(q.apiUrl, a.apiUrl), Pick(q.description, a.description),
                   Pick(q.status, a.status), a.lastSynced, a.createdAt, now)
  }

  lemma MergeApiIntegrationIdempotent(a: ApiIntegration, q: ApiIntegrationPatch, t1: int, t2: int)
    ensures MergeApiIntegration(MergeApiIntegration(a, q, t1), q, t2) == MergeApiIntegration(a, q, t2)
  {
  }

  // ---------------------------------------------------------------- simulations

  datatype Simulation = Simulation(
    id: int,
    userId: Option<int>,
    name: string,
    asset: string,
    prediction: Option<real>,
    confidence: Option<real>,
    volatility: Option<string>,
    upperBound: Option<real>,
    lowerBound: Option<real>,
    recommendation: Option<string>,
    simulationData: Option<SimulationData>,
    createdAt: int)

  datatype SimulationInsert = SimulationInsert(
    userId: Option<int>,
    name: string,
    asset: string,
    prediction: Option<real>,
    confidence: Option<real>,
    volatility: Option<string>,
    upperBound: Option<real>,
    lowerBound: Option<real>,
    recommendation: Option<string>,
    simulationData: Option<SimulationData>)

  /** A simulation has no `updatedAt`: it is never updated. */
  function NewSimulation(s: SimulationInsert, id: int, now: int): (r: Simulation)
    ensures r.id == id && r.createdAt == now && r.userId == s.userId
    ensures r.simulationData == s.simulationData
  {
    Simulation(id, s.userId, s.name, s.asset, s.prediction, s.confidence, s.volatility,
               s.upperBound, s.lowerBound, s.recommendation, s.simulationData, now)
  }

  // ---------------------------------------------------------------- market data

  /** Gas price tiers, in gwei. */
  datatype GasData = GasData(slow: int, average: int, fast: int)

  datatype MarketData = MarketData(
    id: int,
    asset: string,
    ticker: string,
    price: real,
    change24h: Option<real>,
    volume24h: Option<real>,
    gasPrice: Option<real>,
    gasData: Option<GasData>,
    updatedAt: int)

  datatype MarketDataInsert = MarketDataInsert(
    asset: string,
    ticker: string,
    price: real,
    change24h: Option<real>,
    volume24h: Option<real>,
    gasPrice: Option<real>,
    gasData: Option<GasData>)

  datatype MarketDataPatch = MarketDataPatch(
    asset: Option<string>,
    ticker: Option<string>,
    price: Option<real>,
    change24h: Option<Option<real>>,
    volume24h: Option<Option<real>>,
    gasPrice: Option<Option<real>>,
    gasData: Option<Option<GasData>>)

  const NoMarketChange := MarketDataPatch(None, None, None, None, None, None, None)

  /** The patch the periodic tick sends: a new price and a new 24-hour change, nothing else. */
  function PriceChange(price: real, change24h: real): (q: MarketDataPatch)
    ensures q.price == Some(price) && q.change24h == Some(Some(change24h))
    ensures q.(price := None, change24h := None) == NoMarketChange
  {
    NoMarketChange.(price := Some(price), change24h := Some(Some(change24h)))
  }

  function NewMarketData(d: MarketDataInsert, id: int, now: int): (r: MarketData)
    ensures r.id == id && r.updatedAt == now && r.asset == d.asset && r.price == d.price
  {
    MarketData(id, d.asset, d.ticker, d.price, d.change24h, d.volume24h, d.gasPrice, d.gasData, now)
  }

  function MergeMarketData(m: MarketData, q: MarketDataPatch, now: int): (r: MarketData)
    ensures r.id == m.id && r.updatedAt == now
    ensures q == NoMarketChange ==> r == m.(updatedAt := now)
  {
    MarketData(m.id, Pick(q.asset, m.asset), Pick(q.ticker, m.ticker), Pick(q.price, m.price),
               Pick(q.change24h, m.change24h), Pick(q.volume24h, m.volume24h),
               Pick(q.gasPrice, m.gasPrice), Pick(q.gasData, m.gasData), now)
  }

  /** The tick's patch changes the price and the change and keeps every other field. */
  lemma PriceChangeKeepsRest(m: MarketData, price: real, change24h: real, now: int)
    ensures MergeMarketData(m, PriceChange(price, change24h), now)
         == m.(price := price, change24h := Some(change24h), updatedAt := now)
  {
  }

  lemma MergeMarketDataIdempotent(m: MarketData, q: MarketDataPatch, t1: int, t2: int)
    ensures MergeMarketData(MergeMarketData(m, q, t1), q, t2) == MergeMarketData(m, q, t2)
  {
  }

  /** The two records the store starts with. */
  const EthereumSeed := MarketDataInsert("Ethereum", "ETH", 3245.67, Some(2.4), Some(12345678.0),
                                         Some(34.2), Some(GasData(24, 34, 48)))
  const ChainlinkSeed := MarketDataInsert("Chainlink", "LINK", 13.00, Some(-1.2), Some(98765432.0),
                                          None, None)
}
