/** The five asset endpoints: three that drain a cursor-paginated listing
    into one response, and two that make a single fetch. */
module Asset {
  import opened Wrappers
  import opened Client
  import opened AssetQueries
  import opened Pagination

  const CoinExchangePath := "/v5/asset/exchange/order-record"
  const DeliveryPath := "/v5/asset/delivery-record"
  const SettlementPath := "/v5/asset/settlement-record"
  const AssetInfoPath := "/v5/asset/transfer/query-asset-info"
  const AllCoinsBalancePath := "/v5/asset/transfer/query-account-coins-balance"

  /** A pointer to the caller's request struct: the coin-exchange and
      delivery aggregators write each next cursor back into it. */
  class Ref<T> {
    var value: T

    constructor (v: T)
      ensures value == v
    {
      value := v;
    }
  }

  /** Drains the coin-exchange listing. Each round rebuilds the parameters
      from the request, whose cursor it overwrites with every next cursor;
      the first failed fetch ends the call with its error. The ghost `trace`
      lists the fetches made, each with the parameters it sent. */
  method GetCoinExchangeRecords<J, R>(t: Transport<J>, decode: Decoder<Page<R>>, req: Ref<CoinExchangeRecordsRequest>, ghost bound: nat)
    returns (r: Result<Page<R>, Error>, ghost trace: seq<Exchange<R>>)
    requires Ends(Conversation(Endpoint(t, CoinExchangePath, decode), CoinExchangeParams(req.value), 0, bound))
    modifies req
    ensures trace == Conversation(Endpoint(t, CoinExchangePath, decode), CoinExchangeParams(old(req.value)), 0, bound)
    ensures r == Outcome(trace)
    ensures req.value == old(req.value).(cursor := CursorAfter(old(req.value).cursor, trace))
  {
    ghost var ep := Endpoint(t, CoinExchangePath, decode);
    ghost var req0 := req.value;
    ghost var full := Conversation(ep, CoinExchangeParams(req0), 0, bound);
    ghost var done: seq<Exchange<R>> := [];
    var allRecords: seq<R> := [];
    var n: nat := 0;
    ghost var fuel := bound;
    while true
      invariant Midway(ep, done, CoinExchangeParams(req.value), n, fuel, full, allRecords)
      invariant req.value == req0.(cursor := CursorAfter(req0.cursor, done))
      decreases fuel
    {
      var queryParams := BuildCoinExchangeParams(req.value);
      var page := Fetch(t, n, CoinExchangePath, queryParams, decode);
      ghost var e := Exchange(queryParams, page);
      ghost var before := allRecords;
      if page.Failure? {
        FinishRound(ep, done, queryParams, n, fuel, full, before, req0.cursor, e);
        trace := done + [e];
        return Failure(page.error), trace;
      }
      allRecords := allRecords + page.value.list;
      if page.value.nextPageCursor == "" {
        FinishRound(ep, done, queryParams, n, fuel, full, before, req0.cursor, e);
        trace := done + [e];
        return Drained(allRecords), trace;
      }
      ContinueRound(ep, done, queryParams, n, fuel, full, before, req0.cursor, e);
      CoinExchangeCursorUpdate(req.value, page.value.nextPageCursor);
      req.value := req.value.(cursor := Some(page.value.nextPageCursor));
      done := done + [e];
      n := n + 1;
      fuel := fuel - 1;
    }
  }

  /** Drains the delivery-record listing. Each round rebuilds the parameters
      from the request, whose cursor it overwrites with every next cursor;
      the first failed fetch ends the call with its error. The ghost `trace`
      lists the fetches made, each with the parameters it sent. */
  method GetDeliveryRecords<J, R>(t: Transport<J>, decode: Decoder<Page<R>>, req: Ref<DeliveryRecordRequest>, ghost bound: nat)
    returns (r: Result<Page<R>, Error>, ghost trace: seq<Exchange<R>>)
    requires Ends(Conversation(Endpoint(t, DeliveryPath, decode), DeliveryParams(req.value), 0, bound))
    modifies req
    ensures trace == Conversation(Endpoint(t, DeliveryPath, decode), DeliveryParams(old(req.value)), 0, bound)
    ensures r == Outcome(trace)
    ensures req.value == old(req.value).(cursor := CursorAfter(old(req.value).cursor, trace))
  {
    ghost var ep := Endpoint(t, DeliveryPath, decode);
    ghost var req0 := req.value;
    ghost var full := Conversation(ep, DeliveryParams(req0), 0, bound);
    ghost var done: seq<Exchange<R>> := [];
    var allRecords: seq<R> := [];
    var n: nat := 0;
    ghost var fuel := bound;
    while true
      invariant Midway(ep, done, DeliveryParams(req.value), n, fuel, full, allRecords)
      invariant req.value == req0.(cursor := CursorAfter(req0.cursor, done))
      decreases fuel
    {
      var queryParams := BuildDeliveryParams(req.value);
      var page := Fetch(t, n, DeliveryPath, queryParams, decode);
      ghost var e := Exchange(queryParams, page);
      ghost var before := allRecords;
      if page.Failure? {
        FinishRound(ep, done, queryParams, n, fuel, full, before, req0.cursor, e);
        trace := done + [e];
        return Failure(page.error), trace;
      }
      allRecords := allRecords + page.value.list;
      if page.value.nextPageCursor == "" {
        FinishRound(ep, done, queryParams, n, fuel, full, before, req0.cursor, e);
        trace := done + [e];
        return Drained(allRecords), trace;
      }
      ContinueRound(ep, done, queryParams, n, fuel, full, before, req0.cursor, e);
      DeliveryCursorUpdate(req.value, page.value.nextPageCursor);
      req.value := req.value.(cursor := Some(page.value.nextPageCursor));
      done := done + [e];
      n := n + 1;
      fuel := fuel - 1;
    }
  }

  /** Drains the session-settlement listing. The parameters are built once
      from the request, which is left alone; each next cursor is written
      into the parameters instead. The ghost `trace` lists the fetches made,
      each with the parameters it sent. */
  method GetSessionSettlementRecords<J, R>(t: Transport<J>, decode: Decoder<Page<R>>, req: SessionSettlementRecordRequest, ghost bound: nat)
    returns (r: Result<Page<R>, Error>, ghost trace: seq<Exchange<R>>)
    requires Ends(Conversation(Endpoint(t, SettlementPath, decode), SessionSettlementParams(req), 0, bound))
    ensures r == Outcome(Conversation(Endpoint(t, SettlementPath, decode), SessionSettlementParams(req), 0, bound))
    ensures trace == Conversation(Endpoint(t, SettlementPath, decode), SessionSettlementParams(req), 0, bound)
  {
    var queryParams := BuildSessionSettlementParams(req);
    ghost var ep := Endpoint(t, SettlementPath, decode);
    ghost var full := Conversation(ep, queryParams, 0, bound);
    ghost var done: seq<Exchange<R>> := [];
    var allRecords: seq<R> := [];
    var n: nat := 0;
    ghost var fuel := bound;
    while true
      invariant Midway(ep, done, queryParams, n, fuel, full, allRecords)
      decreases fuel
    {
      var page := Fetch(t, n, SettlementPath, queryParams, decode);
      ghost var e := Exchange(queryParams, page);
      ghost var before := allRecords;
      if page.Failure? {
        FinishRound(ep, done, queryParams, n, fuel, full, before, None, e);
        trace := done + [e];
        return Failure(page.error), trace;
      }
      allRecords := allRecords + page.value.list;
      if page.value.nextPageCursor == "" {
        FinishRound(ep, done, queryParams, n, fuel, full, before, None, e);
        trace := done + [e];
        return Drained(allRecords), trace;
      }
      ContinueRound(ep, done, queryParams, n, fuel, full, before, None, e);
      queryParams := queryParams["cursor" := page.value.nextPageCursor];
      done := done + [e];
      n := n + 1;
      fuel := fuel - 1;
    }
  }

  /** One fetch of the asset information; the decoded response is returned
      as it came, or the error of the step that failed. */
  method GetAssetInfo<J, T>(t: Transport<J>, decode: Decoder<T>, req: AssetInfoRequest) returns (r: Result<T, Error>)
    ensures r == Fetch(t, 0, AssetInfoPath, AssetInfoParams(req), decode)
  {
    var queryParams := BuildAssetInfoParams(req);
    r := Fetch(t, 0, AssetInfoPath, queryParams, decode);
  }

  /** One fetch of every coin balance; the decoded response is returned as
      it came, or the error of the step that failed. */
  method GetAllCoinsBalance<J, T>(t: Transport<J>, decode: Decoder<T>, req: AllCoinsBalanceRequest) returns (r: Result<T, Error>)
    ensures r == Fetch(t, 0, AllCoinsBalancePath, AllCoinsBalanceParams(req), decode)
  {
    var queryParams := BuildAllCoinsBalanceParams(req);
    r := Fetch(t, 0, AllCoinsBalancePath, queryParams, decode);
  }
}
