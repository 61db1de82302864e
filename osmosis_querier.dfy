/**
 * The test-only Osmosis query simulator: a fixed set of canned responses
 * answered for four Stargate query routes.  Every operation only reads the
 * fixtures, so the simulator is a value and its handlers are functions.
 *
 * Protobuf decoding of a request and JSON serialisation of a response are
 * calls into other libraries; they are parameters here (a `Codec`).
 */
module Osmosis {
  import opened Wrappers
  import opened Strings

  newtype U64 = x: int | 0 <= x < 0x1_0000_0000_0000_0000
  newtype Byte = x: int | 0 <= x < 0x100
  type Binary = seq<Byte>

  // Response messages are stored and serialised, never inspected.
  type QueryPoolResponse
  type QuerySpotPriceResponse
  type GetArithmeticTwapResponse
  type QuerySwapExactAmountInResponse

  datatype Timestamp = Timestamp(seconds: int, nanos: int)

  datatype QueryPoolRequest = QueryPoolRequest(poolId: U64)

  datatype QuerySpotPriceRequest =
    QuerySpotPriceRequest(poolId: U64, baseAssetDenom: string, quoteAssetDenom: string)

  /** The time window is part of the request but not of the lookup key. */
  datatype GetArithmeticTwapRequest =
    GetArithmeticTwapRequest(poolId: U64, baseAsset: string, quoteAsset: string,
                             startTime: Option<Timestamp>, endTime: Option<Timestamp>)

  /** One hop of a multi-hop swap. */
  datatype SwapAmountInRoute = SwapAmountInRoute(poolId: U64, tokenOutDenom: string)

  /** Only `routes` feeds the lookup key. */
  datatype QuerySwapExactAmountInRequest =
    QuerySwapExactAmountInRequest(sender: string, poolId: U64, tokenIn: string,
                                  routes: seq<SwapAmountInRoute>)

  /** Key of the spot-price and TWAP fixtures. */
  datatype PriceKey = PriceKey(poolId: U64, denomIn: string, denomOut: string)

  /** The four read-only fixture maps. */
  datatype OsmosisQuerier = OsmosisQuerier(
    pools: map<U64, QueryPoolResponse>,
    spotPrices: map<PriceKey, QuerySpotPriceResponse>,
    twapPrices: map<PriceKey, GetArithmeticTwapResponse>,
    estimateSwaps: map<string, QuerySwapExactAmountInResponse>)

  /** `Message::decode` for each request type and `to_binary` for each response type. */
  datatype Codec = Codec(
    decodePool: Binary -> Option<QueryPoolRequest>,
    decodeSpot: Binary -> Option<QuerySpotPriceRequest>,
    decodeTwap: Binary -> Option<GetArithmeticTwapRequest>,
    decodeEstimate: Binary -> Option<QuerySwapExactAmountInRequest>,
    encodePool: QueryPoolResponse -> Binary,
    encodeSpot: QuerySpotPriceResponse -> Binary,
    encodeTwap: GetArithmeticTwapResponse -> Binary,
    encodeEstimate: QuerySwapExactAmountInResponse -> Binary)

  /** The key a handler looked up and did not find. */
  datatype NotFound =
    | PoolNotFound(poolId: U64)
    | SpotPriceNotFound(priceKey: PriceKey)
    | TwapNotFound(priceKey: PriceKey)
    | SwapEstimateNotFound(routesKey: string)

  datatype SystemError = InvalidRequest(error: NotFound, request: Binary)

  datatype ContractResult = ContractOk(data: Binary) | ContractErr(error: SystemError)

  /** `QuerierResult`: a system-level outcome wrapping the contract-level one. */
  datatype SystemResult = SystemOk(result: ContractResult) | SystemErr(error: SystemError)

  /** `Result<QuerierResult, ()>`: `Unhandled` is the outer `Err(())`. */
  datatype StargateResult = Handled(querierResult: SystemResult) | Unhandled

  const PoolPath := "/osmosis.gamm.v1beta1.Query/Pool"
  const SpotPricePath := "/osmosis.gamm.v1beta1.Query/SpotPrice"
  const TwapPath := "/osmosis.gamm.twap.v1beta1.Query/GetArithmeticTwap"
  const EstimateSwapPath := "/osmosis.gamm.v1beta1.Query/EstimateSwapExactAmountIn"

  predicate IsRoute(path: string) {
    path == PoolPath || path == SpotPricePath || path == TwapPath || path == EstimateSwapPath
  }

  /** A hit serialises the stored response; a miss is a recoverable request-level error. */
  function Answer<K(==), V>(fixtures: map<K, V>, key: K, encode: V -> Binary, missing: NotFound): (r: SystemResult)
  {
    SystemOk(if key in fixtures then ContractOk(encode(fixtures[key]))
             else ContractErr(InvalidRequest(missing, [])))
  }

  function HandleQueryPoolRequest(q: OsmosisQuerier, codec: Codec, request: QueryPoolRequest): (r: SystemResult)
    ensures r.SystemOk?
    ensures r.result.ContractOk? <==> request.poolId in q.pools
    ensures request.poolId in q.pools ==> r.result.data == codec.encodePool(q.pools[request.poolId])
    ensures request.poolId !in q.pools ==> r.result.error == InvalidRequest(PoolNotFound(request.poolId), [])
  {
    Answer(q.pools, request.poolId, codec.encodePool, PoolNotFound(request.poolId))
  }

  const PoolNotFoundPrefix := "QueryPoolResponse is not found for pool id: "

  /** The text of the pool miss: a fixed prefix, then the pool id in decimal. */
  function PoolNotFoundMessage(poolId: U64): (msg: string)
    ensures |msg| > |PoolNotFoundPrefix| && msg[..|PoolNotFoundPrefix|] == PoolNotFoundPrefix
    ensures AllDigits(msg[|PoolNotFoundPrefix|..])
    ensures ParseNat(msg[|PoolNotFoundPrefix|..]) == poolId as nat
    ensures (msg[|PoolNotFoundPrefix|] == '0') == (poolId == 0)
    ensures poolId == 0 ==> msg[|PoolNotFoundPrefix|..] == "0"
  {
    var digits := NatToString(poolId as nat);
    ParseNatToString(poolId as nat);
    assert (PoolNotFoundPrefix + digits)[|PoolNotFoundPrefix|..] == digits;
    PoolNotFoundPrefix + digits
  }

  /** The pool miss message identifies the pool id it was built from. */
  lemma PoolNotFoundMessageNamesPool(a: U64, b: U64)
    ensures PoolNotFoundMessage(a) == PoolNotFoundMessage(b) <==> a == b
  {
    if PoolNotFoundMessage(a) == PoolNotFoundMessage(b) {
      var n := |PoolNotFoundPrefix|;
      assert ParseNat(PoolNotFoundMessage(a)[n..]) == ParseNat(PoolNotFoundMessage(b)[n..]);
    }
  }

  function HandleQuerySpotRequest(q: OsmosisQuerier, codec: Codec, request: QuerySpotPriceRequest): (r: SystemResult)
    ensures r.SystemOk?
    ensures var key := PriceKey(request.poolId, request.baseAssetDenom, request.quoteAssetDenom);
      && (r.result.ContractOk? <==> key in q.spotPrices)
      && (key in q.spotPrices ==> r.result.data == codec.encodeSpot(q.spotPrices[key]))
      && (key !in q.spotPrices ==> r.result.error == InvalidRequest(SpotPriceNotFound(key), []))
  {
    var priceKey := PriceKey(request.poolId, request.baseAssetDenom, request.quoteAssetDenom);
    Answer(q.spotPrices, priceKey, codec.encodeSpot, SpotPriceNotFound(priceKey))
  }

  function HandleQueryTwapRequest(q: OsmosisQuerier, codec: Codec, request: GetArithmeticTwapRequest): (r: SystemResult)
    ensures r.SystemOk?
    ensures var key := PriceKey(request.poolId, request.baseAsset, request.quoteAsset);
      && (r.result.ContractOk? <==> key in q.twapPrices)
      && (key in q.twapPrices ==> r.result.data == codec.encodeTwap(q.twapPrices[key]))
      && (key !in q.twapPrices ==> r.result.error == InvalidRequest(TwapNotFound(key), []))
  {
    var priceKey := PriceKey(request.poolId, request.baseAsset, request.quoteAsset);
    Answer(q.twapPrices, priceKey, codec.encodeTwap, TwapNotFound(priceKey))
  }

  /** One hop's part of the swap key: `"{pool_id}.{token_out_denom}"`. */
  function HopKey(step: SwapAmountInRoute): (part: string)
    ensures |part| > 0
    ensures ',' in part <==> ',' in step.tokenOutDenom
  {
    var digits := NatToString(step.poolId as nat);
    DigitsHaveNoSeparator(digits, ',');
    digits + "." + step.tokenOutDenom
  }

  /** The hops' parts in route order: `route.iter().map(..).collect()`. */
  function HopKeys(route: seq<SwapAmountInRoute>): (parts: seq<string>)
  {
    seq(|route|, i requires 0 <= i < |route| => HopKey(route[i]))
  }

  /**
   * The hops' parts in route order, joined by single commas: empty for the
   * empty route, and no separator before the first part or after the last.
   */
  function PrepareEstimateSwapKey(route: seq<SwapAmountInRoute>): (key: string)
    ensures route == [] ==> key == ""
    ensures |route| == 1 ==> key == HopKey(route[0])
    ensures |route| > 1 ==> key == HopKey(route[0]) + "," + PrepareEstimateSwapKey(route[1..])
    ensures route != [] ==> var first := HopKey(route[0]);
      |key| >= |first| && key[..|first|] == first
    ensures route != [] ==> var last := HopKey(route[|route| - 1]);
      |key| >= |last| && key[|key| - |last|..] == last
    decreases |route|
  {
    var parts := HopKeys(route);
    assert |route| > 1 ==> parts[1..] == HopKeys(route[1..]);
    Join(parts, ',')
  }

  /** In `p + [c] + x` with `c !in p`, the first `c` sits at index `|p|`. */
  lemma FirstSeparatorAt(p: string, x: string, c: char)
    requires c !in p
    ensures (p + [c] + x)[|p|] == c
    ensures forall k :: 0 <= k < |p| ==> (p + [c] + x)[k] != c
  {
  }

  lemma SeparatedPrefixUnique(p1: string, x: string, p2: string, y: string, c: char)
    requires c !in p1 && c !in p2
    requires p1 + [c] + x == p2 + [c] + y
    ensures p1 == p2 && x == y
  {
    var s := p1 + [c] + x;
    FirstSeparatorAt(p1, x, c);
    FirstSeparatorAt(p2, y, c);
    assert |p1| == |p2|;
    assert p1 == s[..|p1|] == p2;
    assert x == s[|p1| + 1..] == y;
  }

  lemma DigitsHaveNoSeparator(s: string, c: char)
    requires AllDigits(s) && !IsDigit(c)
    ensures c !in s
  {
  }

  /** A hop's part determines the hop (its pool id and its output denom). */
  lemma HopKeyInjective(a: SwapAmountInRoute, b: SwapAmountInRoute)
    ensures HopKey(a) == HopKey(b) <==> a == b
  {
    if HopKey(a) == HopKey(b) {
      var sa, sb := NatToString(a.poolId as nat), NatToString(b.poolId as nat);
      DigitsHaveNoSeparator(sa, '.');
      DigitsHaveNoSeparator(sb, '.');
      SeparatedPrefixUnique(sa, a.tokenOutDenom, sb, b.tokenOutDenom, '.');
      NatToStringInjective(a.poolId as nat, b.poolId as nat);
    }
  }

  /** No output denom contains the `","` separator. */
  predicate CommaFreeDenoms(route: seq<SwapAmountInRoute>) {
    forall i :: 0 <= i < |route| ==> ',' !in route[i].tokenOutDenom
  }

  /** With comma-free denoms, splitting the key on `","` gives back the hops' parts, one per hop. */
  lemma SplitEstimateSwapKey(route: seq<SwapAmountInRoute>)
    requires route != [] && CommaFreeDenoms(route)
    ensures Split(PrepareEstimateSwapKey(route), ',') == HopKeys(route)
  {
    SplitJoin(HopKeys(route), ',');
  }

  /** Only the empty route has the empty key. */
  lemma EmptyKeyOnlyForEmptyRoute(route: seq<SwapAmountInRoute>)
    ensures PrepareEstimateSwapKey(route) == "" <==> route == []
  {
    if route != [] {
      assert |PrepareEstimateSwapKey(route)| >= |HopKey(route[0])| > 0;
    }
  }

  /** Non-empty comma-free hop lists with equal keys have equal hop parts, hence equal hops. */
  lemma {:induction false} SameHopsFromSameKey(a: seq<SwapAmountInRoute>, b: seq<SwapAmountInRoute>)
    requires a != [] && b != [] && CommaFreeDenoms(a) && CommaFreeDenoms(b)
    requires PrepareEstimateSwapKey(a) == PrepareEstimateSwapKey(b)
    ensures a == b
  {
    SplitEstimateSwapKey(a);
    SplitEstimateSwapKey(b);
    var pa, pb := HopKeys(a), HopKeys(b);
    assert pa == pb;
    forall i | 0 <= i < |a| ensures a[i] == b[i] {
      assert pa[i] == pb[i];
      HopKeyInjective(a[i], b[i]);
    }
  }

  /**
   * Two hop lists with comma-free denoms hit the same swap-estimate
   * fixture exactly when they are the same list.
   */
  lemma SameSwapKeyIffSameHops(a: seq<SwapAmountInRoute>, b: seq<SwapAmountInRoute>)
    requires CommaFreeDenoms(a) && CommaFreeDenoms(b)
    ensures PrepareEstimateSwapKey(a) == PrepareEstimateSwapKey(b) <==> a == b
  {
    if PrepareEstimateSwapKey(a) == PrepareEstimateSwapKey(b) {
      EmptyKeyOnlyForEmptyRoute(a);
      EmptyKeyOnlyForEmptyRoute(b);
      if a != [] && b != [] {
        SameHopsFromSameKey(a, b);
      }
    }
  }

  /** Without the comma-free condition two different hop lists can share a key. */
  lemma SwapKeyCollidesOnCommaDenom()
    ensures var one := [SwapAmountInRoute(1, "a,2.b")];
            var two := [SwapAmountInRoute(1, "a"), SwapAmountInRoute(2, "b")];
            one != two && PrepareEstimateSwapKey(one) == PrepareEstimateSwapKey(two)
  {
    assert NatToString(1) == "1" && NatToString(2) == "2";
  }

  function HandleQueryEstimateRequest(q: OsmosisQuerier, codec: Codec, request: QuerySwapExactAmountInRequest): (r: SystemResult)
    ensures r.SystemOk?
    ensures var key := PrepareEstimateSwapKey(request.routes);
      && (r.result.ContractOk? <==> key in q.estimateSwaps)
      && (key in q.estimateSwaps ==> r.result.data == codec.encodeEstimate(q.estimateSwaps[key]))
      && (key !in q.estimateSwaps ==> r.result.error == InvalidRequest(SwapEstimateNotFound(key), []))
  {
    var routesKey := PrepareEstimateSwapKey(request.routes);
    Answer(q.estimateSwaps, routesKey, codec.encodeEstimate, SwapEstimateNotFound(routesKey))
  }

  /**
   * Routes on the exact path; a recognised path whose payload does not
   * decode falls through the remaining checks and ends in `Unhandled`.
   */
  function HandleStargateQuery(q: OsmosisQuerier, codec: Codec, path: string, data: Binary): (r: StargateResult)
    ensures !IsRoute(path) ==> r == Unhandled
    ensures path == PoolPath ==> r == match codec.decodePool(data)
      case Some(request) => Handled(HandleQueryPoolRequest(q, codec, request))
      case None => Unhandled
    ensures path == SpotPricePath ==> r == match codec.decodeSpot(data)
      case Some(request) => Handled(HandleQuerySpotRequest(q, codec, request))
      case None => Unhandled
    ensures path == TwapPath ==> r == match codec.decodeTwap(data)
      case Some(request) => Handled(HandleQueryTwapRequest(q, codec, request))
      case None => Unhandled
    ensures path == EstimateSwapPath ==> r == match codec.decodeEstimate(data)
      case Some(request) => Handled(HandleQueryEstimateRequest(q, codec, request))
      case None => Unhandled
    ensures r.Handled? ==> r.querierResult.SystemOk?
  {
    if path == PoolPath && codec.decodePool(data).Some? then
      Handled(HandleQueryPoolRequest(q, codec, codec.decodePool(data).value))
    else if path == SpotPricePath && codec.decodeSpot(data).Some? then
      Handled(HandleQuerySpotRequest(q, codec, codec.decodeSpot(data).value))
    else if path == TwapPath && codec.decodeTwap(data).Some? then
      Handled(HandleQueryTwapRequest(q, codec, codec.decodeTwap(data).value))
    else if path == EstimateSwapPath && codec.decodeEstimate(data).Some? then
      Handled(HandleQueryEstimateRequest(q, codec, codec.decodeEstimate(data).value))
    else
      Unhandled
  }

  /**
   * The lookup depends on a request's semantic fields only: two payloads
   * that decode to the same pool id and denoms get the same answer, whatever
   * else they carry (the TWAP time window, any other encoding difference).
   */
  lemma PriceLookupIgnoresEncoding(q: OsmosisQuerier, codec: Codec, d1: Binary, d2: Binary)
    requires codec.decodeTwap(d1).Some? && codec.decodeTwap(d2).Some?
    requires var r1, r2 := codec.decodeTwap(d1).value, codec.decodeTwap(d2).value;
      r1.poolId == r2.poolId && r1.baseAsset == r2.baseAsset && r1.quoteAsset == r2.quoteAsset
    ensures HandleStargateQuery(q, codec, TwapPath, d1) == HandleStargateQuery(q, codec, TwapPath, d2)
  {
  }

  /** Two swap-estimate payloads with the same hop list get the same answer. */
  lemma EstimateLookupIgnoresOtherFields(q: OsmosisQuerier, codec: Codec, d1: Binary, d2: Binary)
    requires codec.decodeEstimate(d1).Some? && codec.decodeEstimate(d2).Some?
    requires codec.decodeEstimate(d1).value.routes == codec.decodeEstimate(d2).value.routes
    ensures HandleStargateQuery(q, codec, EstimateSwapPath, d1) == HandleStargateQuery(q, codec, EstimateSwapPath, d2)
  {
  }

  /**
   * Spot-price and TWAP requests with the same pool id and denoms build the
   * same key but are answered from their own maps; a neighbouring pool id
   * is a miss that names its key.
   */
  lemma SpotAndTwapAnsweredSeparately(q: OsmosisQuerier, codec: Codec, spotData: Binary, twapData: Binary, missData: Binary)
    requires codec.decodeSpot(spotData) == Some(QuerySpotPriceRequest(7, "uosmo", "uusd"))
    requires codec.decodeTwap(twapData).Some?
    requires var t := codec.decodeTwap(twapData).value;
      t.poolId == 7 && t.baseAsset == "uosmo" && t.quoteAsset == "uusd"
    requires codec.decodeSpot(missData) == Some(QuerySpotPriceRequest(8, "uosmo", "uusd"))
    requires PriceKey(7, "uosmo", "uusd") in q.spotPrices && PriceKey(7, "uosmo", "uusd") in q.twapPrices
    requires PriceKey(8, "uosmo", "uusd") !in q.spotPrices
    ensures HandleStargateQuery(q, codec, SpotPricePath, spotData)
         == Handled(SystemOk(ContractOk(codec.encodeSpot(q.spotPrices[PriceKey(7, "uosmo", "uusd")]))))
    ensures HandleStargateQuery(q, codec, TwapPath, twapData)
         == Handled(SystemOk(ContractOk(codec.encodeTwap(q.twapPrices[PriceKey(7, "uosmo", "uusd")]))))
    ensures HandleStargateQuery(q, codec, SpotPricePath, missData)
         == Handled(SystemOk(ContractErr(InvalidRequest(SpotPriceNotFound(PriceKey(8, "uosmo", "uusd")), []))))
  {
  }
}
