/**
 * `MemStorage`: six id-keyed tables, each with a counter that starts at 1 and is
 * post-incremented by every create. Reads of a table iterate it in ascending id order.
 */
module Storage {
  import opened Wrappers
  import opened Tables
  import opened Records

  /** The whole store as a value, so that a method can say which part of it changed. */
  datatype StoreState = StoreState(
    users: map<int, User>,
    positions: map<int, Position>,
    smartContracts: map<int, SmartContract>,
    apiIntegrations: map<int, ApiIntegration>,
    simulations: map<int, Simulation>,
    marketData: map<int, MarketData>,
    nextUserId: int,
    nextPositionId: int,
    nextContractId: int,
    nextIntegrationId: int,
    nextSimulationId: int,
    nextMarketDataId: int)

  /** A table whose values sit under their own ids, all below the table's counter. */
  predicate IdTable<T>(m: map<int, T>, id: T -> int, next: int)
  {
    Keyed(m, id) && IdsBelow(m.Keys, next)
  }

  /** Inserting under the counter keeps the table well formed with the counter one higher. */
  lemma InsertFresh<T>(m: map<int, T>, id: T -> int, next: int, x: T)
    requires IdTable(m, id, next) && id(x) == next
    ensures next !in m && forall k | k in m :: k < next
    ensures IdTable(m[next := x], id, next + 1)
  {
  }

  /** The first market record, in id order, for that asset. */
  function ByAsset(m: map<int, MarketData>, next: int, asset: string): (r: Option<MarketData>)
    requires IdTable(m, (d: MarketData) => d.id, next)
    ensures r.None? <==> forall k | k in m :: m[k].asset != asset
    ensures r.Some? ==> r.value.id in m && m[r.value.id] == r.value && r.value.asset == asset
    ensures r.Some? ==> forall k | k in m && m[k].asset == asset :: r.value.id <= k
  {
    FindRow(m, next, (d: MarketData) => d.id, (d: MarketData) => d.asset == asset);
    Find(InIdOrder(m, next), (d: MarketData) => d.asset == asset)
  }

  class MemStorage {
    var users: map<int, User>
    var positions: map<int, Position>
    var smartContracts: map<int, SmartContract>
    var apiIntegrations: map<int, ApiIntegration>
    var simulations: map<int, Simulation>
    var marketData: map<int, MarketData>

    /** The next id each create hands out. */
    var nextUserId: int
    var nextPositionId: int
    var nextContractId: int
    var nextIntegrationId: int
    var nextSimulationId: int
    var nextMarketDataId: int

    function State(): StoreState
      reads this
    {
      StoreState(users, positions, smartContracts, apiIntegrations, simulations, marketData,
                 nextUserId, nextPositionId, nextContractId, nextIntegrationId, nextSimulationId,
                 nextMarketDataId)
    }

    /** Every record is stored under its own id, and every id is below its table's counter. */
    predicate Valid()
      reads this
    {
      && IdTable(users, (u: User) => u.id, nextUserId)
      && IdTable(positions, (p: Position) => p.id, nextPositionId)
      && IdTable(smartContracts, (c: SmartContract) => c.id, nextContractId)
      && IdTable(apiIntegrations, (a: ApiIntegration) => a.id, nextIntegrationId)
      && IdTable(simulations, (s: Simulation) => s.id, nextSimulationId)
      && IdTable(marketData, (d: MarketData) => d.id, nextMarketDataId)
    }

    /** An empty store with every counter at 1, then the two seeded market records. */
    constructor(now: int)
      ensures Valid()
      ensures users == map[] && positions == map[] && smartContracts == map[]
      ensures apiIntegrations == map[] && simulations == map[]
      ensures nextUserId == 1 && nextPositionId == 1 && nextContractId == 1
      ensures nextIntegrationId == 1 && nextSimulationId == 1
      ensures marketData == map[1 := NewMarketData(EthereumSeed, 1, now),
                                2 := NewMarketData(ChainlinkSeed, 2, now)]
      ensures nextMarketDataId == 3
    {
      users := map[];
      positions := map[];
      smartContracts := map[];
      apiIntegrations := map[];
      simulations := map[];
      marketData := map[];
      nextUserId := 1;
      nextPositionId := 1;
      nextContractId := 1;
      nextIntegrationId := 1;
      nextSimulationId := 1;
      nextMarketDataId := 1;
      new;
      SeedMarketData(now);
    }

    /** `seedMarketData`: Ethereum then Chainlink, through `createMarketData`. */
    method SeedMarketData(now: int)
      requires Valid()
      modifies this
      ensures Valid()
      ensures State() == old(State()).(
        marketData := old(marketData)[old(nextMarketDataId) := NewMarketData(EthereumSeed, old(nextMarketDataId), now)]
                                     [old(nextMarketDataId) + 1 := NewMarketData(ChainlinkSeed, old(nextMarketDataId) + 1, now)],
        nextMarketDataId := old(nextMarketDataId) + 2)
    {
      var eth := CreateMarketData(EthereumSeed, now);
      var link := CreateMarketData(ChainlinkSeed, now);
    }

    // -------------------------------------------------------------- users

    function GetUser(id: int): (r: Option<User>)
      requires Valid()
      reads this
      ensures r.None? <==> id !in users
      ensures r.Some? ==> r.value.id == id && users[id] == r.value
    {
      if id in users then Some(users[id]) else None
    }

    /** The first user, in id order, with that username. */
    function GetUserByUsername(username: string): (r: Option<User>)
      requires Valid()
      reads this
      ensures r.None? <==> forall k | k in users :: users[k].username != username
      ensures r.Some? ==> r.value.id in users && users[r.value.id] == r.value && r.value.username == username
      ensures r.Some? ==> forall k | k in users && users[k].username == username :: r.value.id <= k
    {
      FindRow(users, nextUserId, (u: User) => u.id, (u: User) => u.username == username);
      Find(InIdOrder(users, nextUserId), (u: User) => u.username == username)
    }

    /** The first user, in id order, whose wallet address is that address. */
    function GetUserByWalletAddress(walletAddress: string): (r: Option<User>)
      requires Valid()
      reads this
      ensures r.None? <==> forall k | k in users :: users[k].walletAddress != Some(walletAddress)
      ensures r.Some? ==> r.value.id in users && users[r.value.id] == r.value
      ensures r.Some? ==> r.value.walletAddress == Some(walletAddress)
      ensures r.Some? ==> forall k | k in users && users[k].walletAddress == Some(walletAddress) :: r.value.id <= k
    {
      FindRow(users, nextUserId, (u: User) => u.id, (u: User) => u.walletAddress == Some(walletAddress));
      Find(InIdOrder(users, nextUserId), (u: User) => u.walletAddress == Some(walletAddress))
    }

    method CreateUser(u: UserInsert) returns (r: User)
      requires Valid()
      modifies this
      ensures Valid()
      ensures r == NewUser(u, old(nextUserId))
      ensures r.id !in old(users) && forall k | k in old(users) :: k < r.id
      ensures State() == old(State()).(users := old(users)[r.id := r], nextUserId := old(nextUserId) + 1)
    {
      var id := nextUserId;
      nextUserId := nextUserId + 1;
      r := NewUser(u, id);
      InsertFresh(users, (u: User) => u.id, id, r);
      users := users[id := r];
    }

    method UpdateUserWalletAddress(id: int, walletAddress: string) returns (r: Option<User>)
      requires Valid()
      modifies this
      ensures Valid()
      ensures id !in old(users) ==> r.None? && State() == old(State())
      ensures id in old(users) ==>
        && r == Some(old(users)[id].(walletAddress := Some(walletAddress)))
        && State() == old(State()).(users := old(users)[id := r.value])
    {
      if id !in users {
        return None;
      }
      var updated := users[id].(walletAddress := Some(walletAddress));
      users := users[id := updated];
      r := Some(updated);
    }

    // -------------------------------------------------------------- positions

    /** The positions of a user, in id order. */
    function GetPositions(userId: int): (r: seq<Position>)
      requires Valid()
      reads this
      ensures forall i :: 0 <= i < |r| ==> r[i].id in positions && positions[r[i].id] == r[i] && r[i].userId == Some(userId)
      ensures forall k | k in positions && positions[k].userId == Some(userId) :: positions[k] in r
      ensures forall i, j :: 0 <= i < j < |r| ==> r[i].id < r[j].id
    {
      RowsWhere(positions, nextPositionId, (p: Position) => p.id, (p: Position) => p.userId == Some(userId));
      Filter(InIdOrder(positions, nextPositionId), (p: Position) => p.userId == Some(userId))
    }

    function GetPosition(id: int): (r: Option<Position>)
      requires Valid()
      reads this
      ensures r.None? <==> id !in positions
      ensures r.Some? ==> r.value.id == id && positions[id] == r.value
    {
      if id in positions then Some(positions[id]) else None
    }

    /** The new record can be read back under its id, created and updated at the same instant. */
    method CreatePosition(p: PositionInsert, now: int) returns (r: Position)
      requires Valid()
      modifies this
      ensures Valid()
      ensures r == NewPosition(p, old(nextPositionId), now)
      ensures GetPosition(r.id) == Some(r) && r.createdAt == r.updatedAt
      ensures r.id !in old(positions) && forall k | k in old(positions) :: k < r.id
      ensures State() == old(State()).(positions := old(positions)[r.id := r], nextPositionId := old(nextPositionId) + 1)
    {
      var id := nextPositionId;
      nextPositionId := nextPositionId + 1;
      r := NewPosition(p, id, now);
      InsertFresh(positions, (p: Position) => p.id, id, r);
      positions := positions[id := r];
    }

    method UpdatePosition(id: int, q: PositionPatch, now: int) returns (r: Option<Position>)
      requires Valid()
      modifies this
      ensures Valid()
      ensures id !in old(positions) ==> r.None? && State() == old(State())
      ensures id in old(positions) ==>
        && r == Some(MergePosition(old(positions)[id], q, now))
        && State() == old(State()).(positions := old(positions)[id := r.value])
    {
      if id !in positions {
        return None;
      }
      var updated := MergePosition(positions[id], q, now);
      positions := positions[id := updated];
      r := Some(updated);
    }

    /** True exactly when the id was present; only that entry goes. */
    method DeletePosition(id: int) returns (r: bool)
      requires Valid()
      modifies this
      ensures Valid()
      ensures r == (id in old(positions))
      ensures State() == old(State()).(positions := old(positions) - {id})
    {
      r := id in positions;
      positions := positions - {id};
    }

    // -------------------------------------------------------------- smart contracts

    function GetSmartContracts(userId: int): (r: seq<SmartContract>)
      requires Valid()
      reads this
      ensures forall i :: 0 <= i < |r| ==>
        r[i].id in smartContracts && smartContracts[r[i].id] == r[i] && r[i].userId == Some(userId)
      ensures forall k | k in smartContracts && smartContracts[k].userId == Some(userId) :: smartContracts[k] in r
      ensures forall i, j :: 0 <= i < j < |r| ==> r[i].id < r[j].id
    {
      RowsWhere(smartContracts, nextContractId, (c: SmartContract) => c.id,
                (c: SmartContract) => c.userId == Some(userId));
      Filter(InIdOrder(smartContracts, nextContractId), (c: SmartContract) => c.userId == Some(userId))
    }

    function GetSmartContract(id: int): (r: Option<SmartContract>)
      requires Valid()
      reads this
      ensures r.None? <==> id !in smartContracts
      ensures r.Some? ==> r.value.id == id && smartContracts[id] == r.value
    {
      if id in smartContracts then Some(smartContracts[id]) else None
    }

    method CreateSmartContract(c: SmartContractInsert, now: int) returns (r: SmartContract)
      requires Valid()
      modifies this
      ensures Valid()
      ensures r == NewSmartContract(c, old(nextContractId), now)
      ensures r.id !in old(smartContracts) && forall k | k in old(smartContracts) :: k < r.id
      ensures State() == old(State()).(smartContracts := old(smartContracts)[r.id := r],
                                       nextContractId := old(nextContractId) + 1)
    {
      var id := nextContractId;
      nextContractId := nextContractId + 1;
      r := NewSmartContract(c, id, now);
      InsertFresh(smartContracts, (c: SmartContract) => c.id, id, r);
      smartContracts := smartContracts[id := r];
    }

    method UpdateSmartContract(id: int, q: SmartContractPatch, now: int) returns (r: Option<SmartContract>)
      requires Valid()
      modifies this
      ensures Valid()
      ensures id !in old(smartContracts) ==> r.None? && State() == old(State())
      ensures id in old(smartContracts) ==>
        && r == Some(MergeSmartContract(old(smartContracts)[id], q, now))
        && State() == old(State()).(smartContracts := old(smartContracts)[id := r.value])
    {
      if id !in smartContracts {
        return None;
      }
      var updated := MergeSmartContract(smartContracts[id], q, now);
      smartContracts := smartContracts[id := updated];
      r := Some(updated);
    }

    method DeleteSmartContract(id: int) returns (r: bool)
      requires Valid()
      modifies this
      ensures Valid()
      ensures r == (id in old(smartContracts))
      ensures State() == old(State()).(smartContracts := old(smartContracts) - {id})
    {
      r := id in smartContracts;
      smartContracts := smartContracts - {id};
    }

    // -------------------------------------------------------------- API integrations

    function GetApiIntegrations(userId: int): (r: seq<ApiIntegration>)
      requires Valid()
      reads this
      ensures forall i :: 0 <= i < |r| ==>
        r[i].id in apiIntegrations && apiIntegrations[r[i].id] == r[i] && r[i].userId == Some(userId)
      ensures forall k | k in apiIntegrations && apiIntegrations[k].userId == Some(userId) :: apiIntegrations[k] in r
      ensures forall i, j :: 0 <= i < j < |r| ==> r[i].id < r[j].id
    {
      RowsWhere(apiIntegrations, nextIntegrationId, (a: ApiIntegration) => a.id,
                (a: ApiIntegration) => a.userId == Some(userId));
      Filter(InIdOrder(apiIntegrations, nextIntegrationId), (a: ApiIntegration) => a.userId == Some(userId))
    }

    function GetApiIntegration(id: int): (r: Option<ApiIntegration>)
      requires Valid()
      reads this
      ensures r.None? <==> id !in apiIntegrations
      ensures r.Some? ==> r.value.id == id && apiIntegrations[id] == r.value
    {
      if id in apiIntegrations then Some(apiIntegrations[id]) else None
    }

    method CreateApiIntegration(a: ApiIntegrationInsert, now: int) returns (r: ApiIntegration)
      requires Valid()
      modifies this
      ensures Valid()
      ensures r == NewApiIntegration(a, old(nextIntegrationId), now)
      ensures r.id !in old(apiIntegrations) && forall k | k in old(apiIntegrations) :: k < r.id
      ensures State() == old(State()).(apiIntegrations := old(apiIntegrations)[r.id := r],
                                       nextIntegrationId := old(nextIntegrationId) + 1)
    {
      var id := nextIntegrationId;
      nextIntegrationId := nextIntegrationId + 1;
      r := NewApiIntegration(a, id, now);
      InsertFresh(apiIntegrations, (a: ApiIntegration) => a.id, id, r);
      apiIntegrations := apiIntegrations[id := r];
    }

    method UpdateApiIntegration(id: int, q: ApiIntegrationPatch, now: int) returns (r: Option<ApiIntegration>)
      requires Valid()
      modifies this
      ensures Valid()
      ensures id !in old(apiIntegrations) ==> r.None? && State() == old(State())
      ensures id in old(apiIntegrations) ==>
        && r == Some(MergeApiIntegration(old(apiIntegrations)[id], q, now))
        && State() == old(State()).(apiIntegrations := old(apiIntegrations)[id := r.value])
    {
      if id !in apiIntegrations {
        return None;
      }
      var updated := MergeApiIntegration(apiIntegrations[id], q, now);
      apiIntegrations := apiIntegrations[id := updated];
      r := Some(updated);
    }

    method DeleteApiIntegration(id: int) returns (r: bool)
      requires Valid()
      modifies this
      ensures Valid()
      ensures r == (id in old(apiIntegrations))
      ensures State() == old(State()).(apiIntegrations := old(apiIntegrations) - {id})
    {
      r := id in apiIntegrations;
      apiIntegrations := apiIntegrations - {id};
    }

    // -------------------------------------------------------------- simulations

    function GetSimulations(userId: int): (r: seq<Simulation>)
      requires Valid()
      reads this
      ensures forall i :: 0 <= i < |r| ==>
        r[i].id in simulations && simulations[r[i].id] == r[i] && r[i].userId == Some(userId)
      ensures forall k | k in simulations && simulations[k].userId == Some(userId) :: simulations[k] in r
      ensures forall i, j :: 0 <= i < j < |r| ==> r[i].id < r[j].id
    {
      RowsWhere(simulations, nextSimulationId, (s: Simulation) => s.id, (s: Simulation) => s.userId == Some(userId));
      Filter(InIdOrder(simulations, nextSimulationId), (s: Simulation) => s.userId == Some(userId))
    }

    function GetSimulation(id: int): (r: Option<Simulation>)
      requires Valid()
      reads this
      ensures r.None? <==> id !in simulations
      ensures r.Some? ==> r.value.id == id && simulations[id] == r.value
    {
      if id in simulations then Some(simulations[id]) else None
    }

    method CreateSimulation(s: SimulationInsert, now: int) returns (r: Simulation)
      requires Valid()
      modifies this
      ensures Valid()
      ensures r == NewSimulation(s, old(nextSimulationId), now)
      ensures r.id !in old(simulations) && forall k | k in old(simulations) :: k < r.id
      ensures State() == old(State()).(simulations := old(simulations)[r.id := r],
                                       nextSimulationId := old(nextSimulationId) + 1)
    {
      var id := nextSimulationId;
      nextSimulationId := nextSimulationId + 1;
      r := NewSimulation(s, id, now);
      InsertFresh(simulations, (s: Simulation) => s.id, id, r);
      simulations := simulations[id := r];
    }

    method DeleteSimulation(id: int) returns (r: bool)
      requires Valid()
      modifies this
      ensures Valid()
      ensures r == (id in old(simulations))
      ensures State() == old(State()).(simulations := old(simulations) - {id})
    {
      r := id in simulations;
      simulations := simulations - {id};
    }

    // -------------------------------------------------------------- market data

    /** Every market record exactly once, in id order. */
    function GetAllMarketData(): (r: seq<MarketData>)
      requires Valid()
      reads this
      ensures forall i :: 0 <= i < |r| ==> r[i].id in marketData && marketData[r[i].id] == r[i]
      ensures forall k | k in marketData :: marketData[k] in r
      ensures forall i, j :: 0 <= i < j < |r| ==> r[i].id < r[j].id
    {
      InIdOrderRows(marketData, nextMarketDataId, (d: MarketData) => d.id);
      InIdOrder(marketData, nextMarketDataId)
    }

    /** `getMarketDataByAsset`: see ByAsset. */
    function GetMarketDataByAsset(asset: string): Option<MarketData>
      requires Valid()
      reads this
    {
      ByAsset(marketData, nextMarketDataId, asset)
    }

    /** Merges the patch into the first record for the asset and stores it under that record's id. */
    method UpdateMarketData(asset: string, q: MarketDataPatch, now: int) returns (r: Option<MarketData>)
      requires Valid()
      modifies this
      ensures Valid()
      ensures old(GetMarketDataByAsset(asset)).None? ==> r.None? && State() == old(State())
      ensures old(GetMarketDataByAsset(asset)).Some? ==>
        var found := old(GetMarketDataByAsset(asset)).value;
        && r == Some(MergeMarketData(found, q, now))
        && State() == old(State()).(marketData := old(marketData)[found.id := r.value])
    {
      var found := GetMarketDataByAsset(asset);
      if found.None? {
        return None;
      }
      var updated := MergeMarketData(found.value, q, now);
      marketData := marketData[found.value.id := updated];
      r := Some(updated);
    }

    method CreateMarketData(d: MarketDataInsert, now: int) returns (r: MarketData)
      requires Valid()
      modifies this
      ensures Valid()
      ensures r == NewMarketData(d, old(nextMarketDataId), now)
      ensures r.id !in old(marketData) && forall k | k in old(marketData) :: k < r.id
      ensures State() == old(State()).(marketData := old(marketData)[r.id := r],
                                       nextMarketDataId := old(nextMarketDataId) + 1)
    {
      var id := nextMarketDataId;
      nextMarketDataId := nextMarketDataId + 1;
      r := NewMarketData(d, id, now);
      InsertFresh(marketData, (d: MarketData) => d.id, id, r);
      marketData := marketData[id := r];
    }
  }
}
