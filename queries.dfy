/** The request structs of the asset endpoints and the query parameters each
    endpoint sends for them. A nil pointer field is an absent Option. */
module AssetQueries {
  import opened Wrappers
  import opened Strconv
  import opened Client

  datatype CoinExchangeRecordsRequest = CoinExchangeRecordsRequest(
    fromCoin: Option<string>,
    toCoin: Option<string>,
    limit: Option<Int64>,
    cursor: Option<string>)

  datatype DeliveryRecordRequest = DeliveryRecordRequest(
    category: string,
    symbol: Option<string>,
    startTime: Option<Int64>,
    endTime: Option<Int64>,
    expDate: Option<string>,
    limit: Option<Int64>,
    cursor: Option<string>)

  datatype SessionSettlementRecordRequest = SessionSettlementRecordRequest(
    category: string,
    symbol: Option<string>,
    startTime: Option<Int64>,
    endTime: Option<Int64>,
    limit: Option<Int64>,
    cursor: Option<string>)

  datatype AssetInfoRequest = AssetInfoRequest(
    accountType: string,
    coin: Option<string>)

  datatype AllCoinsBalanceRequest = AllCoinsBalanceRequest(
    memberId: Option<string>,
    accountType: string,
    coin: Option<string>,
    withBonus: Option<Int64>)

  /** An optional field is sent under `key` exactly when it is set, and then
      with its value: an unset field leaves no key, not an empty value. */
  predicate Mirrors(p: Params, key: string, v: Option<string>) {
    (key in p <==> v.Some?) && (v.Some? ==> p[key] == v.value)
  }

  /** A required field is always sent under `key`, unvalidated. */
  predicate Carries(p: Params, key: string, v: string) {
    key in p && p[key] == v
  }

  /** The base-10 rendering of an optional integer field. */
  function Decimal(v: Option<Int64>): Option<string> {
    match v
    case None => None
    case Some(x) => Some(FormatInt(x))
  }

  function WithOptional(p: Params, key: string, v: Option<string>): Params {
    match v
    case None => p
    case Some(x) => p[key := x]
  }

  function CoinExchangeParams(req: CoinExchangeRecordsRequest): (p: Params)
    ensures Mirrors(p, "fromCoin", req.fromCoin)
    ensures Mirrors(p, "toCoin", req.toCoin)
    ensures Mirrors(p, "limit", Decimal(req.limit))
    ensures Mirrors(p, "cursor", req.cursor)
    ensures p.Keys <= {"fromCoin", "toCoin", "limit", "cursor"}
  {
    var p0: Params := map[];
    var p1 := WithOptional(p0, "fromCoin", req.fromCoin);
    var p2 := WithOptional(p1, "toCoin", req.toCoin);
    var p3 := WithOptional(p2, "limit", Decimal(req.limit));
    WithOptional(p3, "cursor", req.cursor)
  }

  function DeliveryParams(req: DeliveryRecordRequest): (p: Params)
    ensures Carries(p, "category", req.category)
    ensures Mirrors(p, "symbol", req.symbol)
    ensures Mirrors(p, "startTime", Decimal(req.startTime))
    ensures Mirrors(p, "endTime", Decimal(req.endTime))
    ensures Mirrors(p, "expDate", req.expDate)
    ensures Mirrors(p, "limit", Decimal(req.limit))
    ensures Mirrors(p, "cursor", req.cursor)
    ensures p.Keys <= {"category", "symbol", "startTime", "endTime", "expDate", "limit", "cursor"}
  {
    var p0: Params := map["category" := req.category];
    var p1 := WithOptional(p0, "symbol", req.symbol);
    var p2 := WithOptional(p1, "startTime", Decimal(req.startTime));
    var p3 := WithOptional(p2, "endTime", Decimal(req.endTime));
    var p4 := WithOptional(p3, "expDate", req.expDate);
    var p5 := WithOptional(p4, "limit", Decimal(req.limit));
    WithOptional(p5, "cursor", req.cursor)
  }

  function SessionSettlementParams(req: SessionSettlementRecordRequest): (p: Params)
    ensures Carries(p, "category", req.category)
    ensures Mirrors(p, "symbol", req.symbol)
    ensures Mirrors(p, "startTime", Decimal(req.startTime))
    ensures Mirrors(p, "endTime", Decimal(req.endTime))
    ensures Mirrors(p, "limit", Decimal(req.limit))
    ensures Mirrors(p, "cursor", req.cursor)
    ensures p.Keys <= {"category", "symbol", "startTime", "endTime", "limit", "cursor"}
  {
    var p0: Params := map["category" := req.category];
    var p1 := WithOptional(p0, "symbol", req.symbol);
    var p2 := WithOptional(p1, "startTime", Decimal(req.startTime));
    var p3 := WithOptional(p2, "endTime", Decimal(req.endTime));
    var p4 := WithOptional(p3, "limit", Decimal(req.limit));
    WithOptional(p4, "cursor", req.cursor)
  }

  function AssetInfoParams(req: AssetInfoRequest): (p: Params)
    ensures Carries(p, "accountType", req.accountType)
    ensures Mirrors(p, "coin", req.coin)
    ensures p.Keys <= {"accountType", "coin"}
  {
    WithOptional(map["accountType" := req.accountType], "coin", req.coin)
  }

  function AllCoinsBalanceParams(req: AllCoinsBalanceRequest): (p: Params)
    ensures Mirrors(p, "memberId", req.memberId)
    ensures Carries(p, "accountType", req.accountType)
    ensures Mirrors(p, "coin", req.coin)
    ensures Mirrors(p, "withBonus", Decimal(req.withBonus))
    ensures p.Keys <= {"memberId", "accountType", "coin", "withBonus"}
  {
    var p0: Params := map[];
    var p1 := WithOptional(p0, "memberId", req.memberId);
    var p2 := p1["accountType" := req.accountType];
    var p3 := WithOptional(p2, "coin", req.coin);
    WithOptional(p3, "withBonus", Decimal(req.withBonus))
  }

  /** Rebuilding the coin-exchange parameters after the request's cursor is
      set changes the cursor key and nothing else. */
  lemma CoinExchangeCursorUpdate(req: CoinExchangeRecordsRequest, c: string)
    ensures CoinExchangeParams(req.(cursor := Some(c))) == CoinExchangeParams(req)["cursor" := c]
  {
  }

  /** Rebuilding the delivery parameters after the request's cursor is set
      changes the cursor key and nothing else. */
  lemma DeliveryCursorUpdate(req: DeliveryRecordRequest, c: string)
    ensures DeliveryParams(req.(cursor := Some(c))) == DeliveryParams(req)["cursor" := c]
  {
  }

  method BuildCoinExchangeParams(req: CoinExchangeRecordsRequest) returns (queryParams: Params)
    ensures queryParams == CoinExchangeParams(req)
  {
    queryParams := map[];
    if req.fromCoin.Some? {
      queryParams := queryParams["fromCoin" := req.fromCoin.value];
    }
    if req.toCoin.Some? {
      queryParams := queryParams["toCoin" := req.toCoin.value];
    }
    if req.limit.Some? {
      queryParams := queryParams["limit" := FormatInt(req.limit.value)];
    }
    if req.cursor.Some? {
      queryParams := queryParams["cursor" := req.cursor.value];
    }
  }

  method BuildDeliveryParams(req: DeliveryRecordRequest) returns (queryParams: Params)
    ensures queryParams == DeliveryParams(req)
  {
    queryParams := map[];
    queryParams := queryParams["category" := req.category];
    if req.symbol.Some? {
      queryParams := queryParams["symbol" := req.symbol.value];
    }
    if req.startTime.Some? {
      queryParams := queryParams["startTime" := FormatInt(req.startTime.value)];
    }
    if req.endTime.Some? {
      queryParams := queryParams["endTime" := FormatInt(req.endTime.value)];
    }
    if req.expDate.Some? {
      queryParams := queryParams["expDate" := req.expDate.value];
    }
    if req.limit.Some? {
      queryParams := queryParams["limit" := FormatInt(req.limit.value)];
    }
    if req.cursor.Some? {
      queryParams := queryParams["cursor" := req.cursor.value];
    }
  }

  method BuildSessionSettlementParams(req: SessionSettlementRecordRequest) returns (queryParams: Params)
    ensures queryParams == SessionSettlementParams(req)
  {
    queryParams := map[];
    queryParams := queryParams["category" := req.category];
    if req.symbol.Some? {
      queryParams := queryParams["symbol" := req.symbol.value];
    }
    if req.startTime.Some? {
      queryParams := queryParams["startTime" := FormatInt(req.startTime.value)];
    }
    if req.endTime.Some? {
      queryParams := queryParams["endTime" := FormatInt(req.endTime.value)];
    }
    if req.limit.Some? {
      queryParams := queryParams["limit" := FormatInt(req.limit.value)];
    }
    if req.cursor.Some? {
      queryParams := queryParams["cursor" := req.cursor.value];
    }
  }

  method BuildAssetInfoParams(req: AssetInfoRequest) returns (queryParams: Params)
    ensures queryParams == AssetInfoParams(req)
  {
    queryParams := map[];
    queryParams := queryParams["accountType" := req.accountType];
    if req.coin.Some? {
      queryParams := queryParams["coin" := req.coin.value];
    }
  }

  method BuildAllCoinsBalanceParams(req: AllCoinsBalanceRequest) returns (queryParams: Params)
    ensures queryParams == AllCoinsBalanceParams(req)
  {
    queryParams := map[];
    if req.memberId.Some? {
      queryParams := queryParams["memberId" := req.memberId.value];
    }
    queryParams := queryParams["accountType" := req.accountType];
    if req.coin.Some? {
      queryParams := queryParams["coin" := req.coin.value];
    }
    if req.withBonus.Some? {
      queryParams := queryParams["withBonus" := FormatInt(req.withBonus.value)];
    }
  }
}
