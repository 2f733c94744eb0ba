/**
 * The server's market feed: the throttled broadcast of the market table to the open
 * WebSocket clients, the snapshot a client receives on connecting, the periodic price tick
 * and the PATCH handler for one asset's market data.
 *
 * Clock readings (`Date.now()`) and `Math.random()` draws are parameters. The socket
 * library's client set is a sequence of client states; a send appends to the client's inbox.
 */
module MarketFeed {
  import opened Wrappers
  import opened JsNumber
  import opened Records
  import opened Storage

  /** Minimum time, in milliseconds, between two broadcasts. */
  const BroadcastThrottle := 5000

  datatype ReadyState = Connecting | Open | Closing | Closed

  /** `{ type: "MARKET_DATA", data }`, the only message the server sends. */
  datatype Message = MarketDataMessage(data: seq<MarketData>)

  datatype Client = Client(readyState: ReadyState, inbox: seq<Message>)

  /** `client.send(message)` when the client is OPEN; nothing otherwise. */
  function SendIfOpen(c: Client, msg: Message): (r: Client)
    ensures r.readyState == c.readyState
    ensures r.inbox == if c.readyState == Open then c.inbox + [msg] else c.inbox
  {
    if c.readyState == Open then c.(inbox := c.inbox + [msg]) else c
  }

  /** The clients after one fan-out of msg. */
  function Deliver(cs: seq<Client>, msg: Message): (r: seq<Client>)
    ensures |r| == |cs|
    ensures forall i :: 0 <= i < |cs| ==> r[i] == SendIfOpen(cs[i], msg)
  {
    seq(|cs|, i requires 0 <= i < |cs| => SendIfOpen(cs[i], msg))
  }

  /** The number of OPEN clients: `clientCount` after the loop. */
  function OpenCount(cs: seq<Client>): (n: nat)
    ensures n <= |cs|
  {
    if cs == [] then 0
    else OpenCount(cs[..|cs| - 1]) + (if cs[|cs| - 1].readyState == Open then 1 else 0)
  }

  /**
   * A fan-out does not change who is open, so counting again gives the same number, and it
   * adds exactly one message, the same one, to each of those clients and to no other.
   */
  lemma {:induction false} DeliverOpen(cs: seq<Client>, msg: Message)
    ensures OpenCount(Deliver(cs, msg)) == OpenCount(cs)
    ensures forall i :: 0 <= i < |cs| ==>
      |Deliver(cs, msg)[i].inbox| == |cs[i].inbox| + (if cs[i].readyState == Open then 1 else 0)
    decreases |cs|
  {
    if cs != [] {
      var front := cs[..|cs| - 1];
      DeliverOpen(front, msg);
      assert Deliver(cs, msg)[..|cs| - 1] == Deliver(front, msg);
    }
  }

  /** Whether a broadcast at `now` goes out after one at `last`: strictly more than 5000 ms. */
  predicate Due(last: int, now: int)
  {
    now - last > BroadcastThrottle
  }

  /**
   * The times at which a run of broadcast requests actually sends, starting from
   * `lastBroadcast` = last.
   */
  function SentTimes(last: int, requests: seq<int>): (r: seq<int>)
    ensures |r| <= |requests|
    decreases |requests|
  {
    if requests == [] then []
    else if Due(last, requests[0]) then [requests[0]] + SentTimes(requests[0], requests[1..])
    else SentTimes(last, requests[1..])
  }

  /**
   * The throttle as a state machine: every send is more than 5000 ms after the previous one
   * (and after the starting `lastBroadcast`), whatever the order of the requests.
   */
  lemma {:induction false} SentTimesSpaced(last: int, requests: seq<int>)
    ensures var r := SentTimes(last, requests);
      (|r| > 0 ==> r[0] - last > BroadcastThrottle)
      && forall i :: 0 <= i < |r| - 1 ==> r[i + 1] - r[i] > BroadcastThrottle
    decreases |requests|
  {
    if requests != [] {
      SentTimesSpaced(if Due(last, requests[0]) then requests[0] else last, requests[1..]);
    }
  }

  /** Requests that arrive every `period` > 5000 ms after the start all go out. */
  lemma {:induction false} SlowRequestsAllSent(last: int, requests: seq<int>)
    requires |requests| > 0 ==> requests[0] - last > BroadcastThrottle
    requires forall i :: 0 <= i < |requests| - 1 ==> requests[i + 1] - requests[i] > BroadcastThrottle
    ensures SentTimes(last, requests) == requests
    decreases |requests|
  {
    if requests != [] {
      SlowRequestsAllSent(requests[0], requests[1..]);
    }
  }

  /**
   * Two requests one second apart give one broadcast; a third six seconds after the first
   * gives the second.
   */
  lemma ThrottleExample()
    ensures SentTimes(0, [10000, 11000, 16000]) == [10000, 16000]
  {
    assert SentTimes(16000, []) == [];
    assert SentTimes(10000, [16000]) == [16000];
    assert SentTimes(10000, [11000, 16000]) == [16000];
  }

  /** `Math.random()` draws of one tick, each in [0, 1). */
  datatype TickDraws = TickDraws(ethPrice: real, ethChange: real, linkPrice: real, linkChange: real)

  predicate ValidTickDraws(d: TickDraws)
  {
    && 0.0 <= d.ethPrice < 1.0 && 0.0 <= d.ethChange < 1.0
    && 0.0 <= d.linkPrice < 1.0 && 0.0 <= d.linkChange < 1.0
  }

  /** `1 + (Math.random() * 0.01 - 0.005)`: at most half a percent either way. */
  function PriceFactor(draw: real): (f: real)
  {
    1.0 + (draw * 0.01 - 0.005)
  }

  /** `Math.random() * 0.2 - 0.1`. */
  function ChangeDelta(draw: real): (d: real)
  {
    draw * 0.2 - 0.1
  }

  lemma PerturbationBounds(draw: real)
    requires 0.0 <= draw < 1.0
    ensures 0.995 <= PriceFactor(draw) < 1.005
    ensures -0.1 <= ChangeDelta(draw) < 0.1
  {
  }

  /** A positive price stays positive, and a price of at least a cent stays at least a cent once rounded. */
  lemma TickKeepsPrice(price: real, draw: real)
    requires 0.0 <= draw < 1.0
    ensures price > 0.0 ==> price * PriceFactor(draw) > 0.0
    ensures price >= 0.01 ==> TickPrice(price, draw) >= 0.01
  {
    var f := PriceFactor(draw);
    if price >= 0.01 {
      MultiplyMonotone(0.01, price, f);
      CentsMonotone(0.00995, price * f);
      assert Round(0.00995 * 100.0) == 1;
    }
  }

  /** `newPrice.toFixed(2)` with `newPrice = currentPrice * (1 + (Math.random() * 0.01 - 0.005))`. */
  function TickPrice(price: real, draw: real): real
  {
    ToCents(price * PriceFactor(draw))
  }

  /** `newChange.toFixed(1)` with `newChange = currentChange + (Math.random() * 0.2 - 0.1)`. */
  function TickChange(change: real, draw: real): real
  {
    ToTenths(change + ChangeDelta(draw))
  }

  /**
   * One asset's part of a tick: when the asset has a record with a 24-hour change, that
   * record is merged with the perturbed price and change; otherwise nothing changes.
   */
  function Ticked(s: StoreState, asset: string, draws: (real, real), now: int): StoreState
    requires IdTable(s.marketData, (d: MarketData) => d.id, s.nextMarketDataId)
  {
    match ByAsset(s.marketData, s.nextMarketDataId, asset)
    case None => s
    case Some(d) =>
      if d.change24h.None? then s
      else
        var patch := PriceChange(TickPrice(d.price, draws.0),
                                 TickChange(d.change24h.value, draws.1));
        s.(marketData := s.marketData[d.id := MergeMarketData(d, patch, now)])
  }

  /**
   * A tick moves only the first record of its asset: its price becomes the perturbed price in
   * cents, its change the perturbed change in tenths, every other field and every other
   * record stays, and no record appears or disappears.
   */
  lemma TickedRecord(s: StoreState, asset: string, draws: (real, real), now: int)
    requires IdTable(s.marketData, (d: MarketData) => d.id, s.nextMarketDataId)
    ensures var t := Ticked(s, asset, draws, now);
      && t.(marketData := s.marketData) == s
      && t.marketData.Keys == s.marketData.Keys
      && IdTable(t.marketData, (d: MarketData) => d.id, t.nextMarketDataId)
    ensures match ByAsset(s.marketData, s.nextMarketDataId, asset)
      case None => Ticked(s, asset, draws, now) == s
      case Some(d) =>
        && (forall k | k in s.marketData && k != d.id :: Ticked(s, asset, draws, now).marketData[k] == s.marketData[k])
        && (d.change24h.None? ==> Ticked(s, asset, draws, now) == s)
        && (d.change24h.Some? ==>
              Ticked(s, asset, draws, now).marketData[d.id]
                == d.(price := TickPrice(d.price, draws.0),
                      change24h := Some(TickChange(d.change24h.value, draws.1)),
                      updatedAt := now))
  {
    match ByAsset(s.marketData, s.nextMarketDataId, asset)
    case None =>
    case Some(d) =>
      if d.change24h.Some? {
        var price := TickPrice(d.price, draws.0);
        var change := TickChange(d.change24h.value, draws.1);
        PriceChangeKeepsRest(d, price, change, now);
        assert Ticked(s, asset, draws, now).marketData
            == s.marketData[d.id := MergeMarketData(d, PriceChange(price, change), now)];
      }
  }

  /** The route module's state: the store, the throttle's `lastBroadcast` and the connected clients. */
  class Feed {
    const store: MemStorage
    var lastBroadcast: int
    var clients: seq<Client>

    constructor(store: MemStorage)
      ensures this.store == store && lastBroadcast == 0 && clients == []
    {
      this.store := store;
      lastBroadcast := 0;
      clients := [];
    }

    /** The market table as it is now, in id order. */
    function Snapshot(): Message
      requires store.Valid()
      reads store
    {
      MarketDataMessage(store.GetAllMarketData())
    }

    /**
     * `broadcastMarketData`, with `Date.now()` = now. When due, one snapshot goes to every
     * OPEN client and to no other, `lastBroadcast` becomes now and the result is the number
     * of clients reached; otherwise nothing changes and nobody is reached.
     */
    method Broadcast(now: int) returns (clientCount: nat)
      requires store.Valid()
      modifies this`lastBroadcast, this`clients
      ensures Due(old(lastBroadcast), now) ==>
        && clients == Deliver(old(clients), Snapshot())
        && clientCount == OpenCount(old(clients))
        && lastBroadcast == now
      ensures !Due(old(lastBroadcast), now) ==>
        clients == old(clients) && lastBroadcast == old(lastBroadcast) && clientCount == 0
    {
      if !Due(lastBroadcast, now) {
        return 0;
      }
      var message := Snapshot();
      clientCount := 0;
      var i := 0;
      while i < |clients|
        invariant 0 <= i <= |clients| == |old(clients)|
        invariant forall j :: 0 <= j < i ==> clients[j] == SendIfOpen(old(clients)[j], message)
        invariant forall j :: i <= j < |clients| ==> clients[j] == old(clients)[j]
        invariant clientCount == OpenCount(old(clients)[..i])
        decreases |clients| - i
      {
        if clients[i].readyState == Open {
          clients := clients[i := clients[i].(inbox := clients[i].inbox + [message])];
          clientCount := clientCount + 1;
        }
        assert old(clients)[..i + 1][..i] == old(clients)[..i];
        i := i + 1;
      }
      assert old(clients)[..i] == old(clients);
      lastBroadcast := now;
    }

    /**
     * A client connects: it is OPEN and receives its own snapshot at once, whatever the
     * throttle says; `lastBroadcast` is neither read nor written.
     */
    method Connect()
      requires store.Valid()
      modifies this`clients
      ensures clients == old(clients) + [Client(Open, [Snapshot()])]
    {
      clients := clients + [Client(Open, [Snapshot()])];
    }

    /** One asset's part of the tick. */
    method TickAsset(asset: string, draws: (real, real), now: int)
      requires store.Valid()
      modifies store
      ensures store.Valid()
      ensures store.State() == Ticked(old(store.State()), asset, draws, now)
    {
      var record := store.GetMarketDataByAsset(asset);
      if record.Some? && record.value.change24h.Some? {
        var d := record.value;
        var patch := PriceChange(TickPrice(d.price, draws.0),
                                 TickChange(d.change24h.value, draws.1));
        var updated := store.UpdateMarketData(asset, patch, now);
      }
    }

    /**
     * The periodic tick: Ethereum, then Chainlink, then one broadcast. The store operations of
     * the model cannot fail, so the tick's catch-all handler is never reached.
     */
    method Tick(now: int, d: TickDraws) returns (clientCount: nat)
      requires store.Valid() && ValidTickDraws(d)
      modifies store, this`lastBroadcast, this`clients
      ensures store.Valid()
      ensures store.State() == Ticked(Ticked(old(store.State()), "Ethereum", (d.ethPrice, d.ethChange), now),
                                      "Chainlink", (d.linkPrice, d.linkChange), now)
      ensures Due(old(lastBroadcast), now) ==>
        && clients == Deliver(old(clients), Snapshot())
        && clientCount == OpenCount(old(clients))
        && lastBroadcast == now
      ensures !Due(old(lastBroadcast), now) ==>
        clients == old(clients) && lastBroadcast == old(lastBroadcast) && clientCount == 0
    {
      TickAsset("Ethereum", (d.ethPrice, d.ethChange), now);
      TickAsset("Chainlink", (d.linkPrice, d.linkChange), now);
      clientCount := Broadcast(now);
    }

    /**
     * PATCH `/api/market-data/:asset`: 404 with nothing changed and nothing sent when no record
     * has that asset; otherwise the update, then a broadcast, then the updated record.
     */
    method PatchMarketData(asset: string, q: MarketDataPatch, now: int) returns (r: Result<MarketData, int>)
      requires store.Valid()
      modifies store, this`lastBroadcast, this`clients
      ensures store.Valid()
      ensures old(store.GetMarketDataByAsset(asset)).None? ==>
        && r == Failure(404)
        && store.State() == old(store.State())
        && clients == old(clients) && lastBroadcast == old(lastBroadcast)
      ensures old(store.GetMarketDataByAsset(asset)).Some? ==>
        var found := old(store.GetMarketDataByAsset(asset)).value;
        && r == Success(MergeMarketData(found, q, now))
        && store.State() == old(store.State()).(marketData := old(store.marketData)[found.id := r.value])
        && (Due(old(lastBroadcast), now) ==> clients == Deliver(old(clients), Snapshot()) && lastBroadcast == now)
        && (!Due(old(lastBroadcast), now) ==> clients == old(clients) && lastBroadcast == old(lastBroadcast))
    {
      var existing := store.GetMarketDataByAsset(asset);
      if existing.None? {
        return Failure(404);
      }
      var updated := store.UpdateMarketData(asset, q, now);
      var sent := Broadcast(now);
      r := Success(updated.value);
    }
  }
}
