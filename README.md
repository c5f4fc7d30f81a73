# Bybit asset client: cursor pagination and query building

This project models the asset accessor of a Go client for Bybit's v5 REST
API (`bybit/asset/asset.go`) and proves properties of the model. It covers
five endpoints. Three of them drain a cursor-paginated listing into one
response: coin-exchange records, delivery records and session-settlement
records. The other two, asset information and all coin balances, make a
single fetch.

- `wrappers.dfy`: `Option` (Go's nil-able pointer fields) and `Result` (Go's value-and-error returns).
- `strconv.dfy`: the base-10 rendering of `strconv.Itoa` and `strconv.FormatInt(x, 10)`, with a parser as its proved inverse.
- `client.dfy`: the boundary with the REST client. It holds the query parameters (`client.Params`), the transport (`client.Client.Get` and `json.Marshal`) as abstract functions, the per-call decoder (`json.Unmarshal`), and `Fetch`, one GET-marshal-decode cycle whose failures are tagged `FetchError`, `MarshalError` or `DecodeError`.
- `queries.dfy`: the five request structs as datatypes. For each endpoint it has a specification function for the parameter map and a method that fills the map one conditional insertion at a time, as the Go code does.
- `pagination.dfy`: the specification of the pagination loop. `Conversation` is the sequence of fetches one call makes, with the parameters sent and the reply to each. `Outcome` is what the call returns. The lemmas cover stopping, cursor propagation, record order and all-or-nothing failure.
- `asset.dfy`: the five endpoint methods. The coin-exchange and delivery methods take a `Ref` to the caller's request, rebuild the parameters every round and write each next cursor back into the request. The settlement method builds the parameters once and writes the cursor into the map, leaving the request alone. Each method's `while` loop is proved against `Conversation` and `Outcome`.

The server is a function from the fetch number within the call, the path
and the parameters to a generic answer or an error. This keeps everything
deterministic. Go's loop has no bound, so each aggregating method takes a
ghost `bound` and requires the specified conversation to end within that
many fetches. For any server, `Pagination.FirstTerminalBound` shows that
when the k-th fetch is the first to fail or to return an empty cursor,
every bound of at least k gives the same k fetches and no smaller bound
lets the call finish. `Pagination.Termination` works this out for a server
that answers with a fixed list of pages whatever the parameters. Each
aggregating method also returns a ghost `trace` of the fetches it made,
which its contract equates with the specified conversation.

## Model

| member | source | states |
|---|---|---|
| `Strconv.NatDigits` | bybit/asset/asset.go:47 | the rendering of a natural number is a non-empty string of decimal digits, with a leading zero only for 0 itself |
| `Strconv.FormatInt` | bybit/asset/asset.go:96 | the rendering is non-empty, starts with '-' exactly for negative values, and is digits after that, with no leading zero for a non-zero value |
| `Strconv.ParseNatDigits` | bybit/asset/asset.go:105 | reading the digits of n back as a decimal number gives n |
| `Strconv.ParseFormatInt` | bybit/asset/asset.go:150-156 | parsing the rendering of any integer gives that integer back, so limit, startTime, endTime and withBonus are sent as their base-10 values |
| `Strconv.FormatIntInjective` | bybit/asset/asset.go:233 | two integers are rendered alike exactly when they are equal |
| `AssetQueries.CoinExchangeParams` | bybit/asset/asset.go:39-51 | fromCoin, toCoin, limit (in base 10) and cursor are keys exactly when their fields are set, with those values, and no other key is present |
| `AssetQueries.DeliveryParams` | bybit/asset/asset.go:90-109 | category is always sent as given; symbol, startTime, endTime, expDate, limit and cursor are keys exactly when set, numbers in base 10; no other key |
| `AssetQueries.SessionSettlementParams` | bybit/asset/asset.go:144-160 | category is always sent as given; symbol, startTime, endTime, limit and cursor are keys exactly when set, numbers in base 10; no other key |
| `AssetQueries.AssetInfoParams` | bybit/asset/asset.go:201-205 | accountType is always sent as given; coin is a key exactly when set; no other key |
| `AssetQueries.AllCoinsBalanceParams` | bybit/asset/asset.go:224-234 | accountType is always sent as given; memberId, coin and withBonus (in base 10) are keys exactly when set; no other key |
| `AssetQueries.CoinExchangeCursorUpdate` | bybit/asset/asset.go:76 | rebuilding the coin-exchange parameters after the request's cursor is set changes only the cursor key, to the new cursor |
| `AssetQueries.DeliveryCursorUpdate` | bybit/asset/asset.go:133 | rebuilding the delivery parameters after the request's cursor is set changes only the cursor key, to the new cursor |
| `AssetQueries.BuildCoinExchangeParams` | bybit/asset/asset.go:39-51 | the map filled insertion by insertion is the coin-exchange parameter map |
| `AssetQueries.BuildDeliveryParams` | bybit/asset/asset.go:90-109 | the map filled insertion by insertion is the delivery parameter map |
| `AssetQueries.BuildSessionSettlementParams` | bybit/asset/asset.go:144-160 | the map filled insertion by insertion is the settlement parameter map |
| `AssetQueries.BuildAssetInfoParams` | bybit/asset/asset.go:201-205 | the map filled insertion by insertion is the asset-information parameter map |
| `AssetQueries.BuildAllCoinsBalanceParams` | bybit/asset/asset.go:224-234 | the map filled insertion by insertion is the coin-balance parameter map |
| `Client.Fetch` | bybit/asset/asset.go:54-67 | one fetch succeeds exactly when the GET, `json.Marshal` and `json.Unmarshal` all succeed, and then returns the decoded value; otherwise the error is tagged with the first step that failed and carries that step's cause (the same sequence is at 112-123, 167-178, 208-219 and 237-250) |
| `Pagination.Records` | bybit/asset/asset.go:70 | every accumulated record comes from a page that decoded, and every record of every decoded page is accumulated (the same `append` is at 126 and 181) |
| `Pagination.CursorAfter` | bybit/asset/asset.go:76 | the request's cursor is left as the caller set it when no page had a next cursor, and otherwise is the next cursor of the last page that had one (the same write is at 133) |
| `Pagination.Outcome` | bybit/asset/asset.go:54-81 | a finished call fails exactly when its last fetch failed, and then returns that fetch's error and no records; otherwise it returns one page with retCode 0, retMsg "OK", no cursor and the accumulated records, whatever the last page said (likewise 112-140 and 167-195) |
| `Pagination.FinishRound` | bybit/asset/asset.go:54-75 | a round whose fetch fails or returns an empty cursor is the last one: the call's fetches are complete, it returns that failure or every record so far plus the page's own, and the cursor stays where the previous round left it |
| `Pagination.ContinueRound` | bybit/asset/asset.go:69-76 | a round whose page has a next cursor leaves another fetch due, with the cursor key set to that cursor, the page's records appended after the earlier ones, and the request's cursor set to it |
| `Pagination.Conversation` | bybit/asset/asset.go:166-190 | the loop makes at most `fuel` fetches, and the first one sends the initial parameters |
| `Pagination.RepliesAreFetched` | bybit/asset/asset.go:54-67 | the reply recorded for fetch i is what the transport and decoder produce for fetch number n + i with the parameters sent |
| `Pagination.StopsAtFirstTerminal` | bybit/asset/asset.go:73-75 | every fetch before the last delivered a page with a next cursor, and the loop stops early only at a failure or an empty cursor |
| `Pagination.MoreFuel` | bybit/asset/asset.go:72-75 | once the loop has stopped at a failure or an empty cursor, allowing more fetches does not change the fetches made |
| `Pagination.ExactFuel` | bybit/asset/asset.go:72-75 | a finished call of k fetches is already finished when only k fetches are allowed |
| `Pagination.FirstTerminalBound` | bybit/asset/asset.go:72-75 | if the k-th fetch is the first to fail or return an empty cursor, any bound of at least k gives exactly those k fetches, and no smaller bound lets the call finish |
| `Pagination.CursorPropagation` | bybit/asset/asset.go:184-189 | each fetch after the first sends the previous fetch's parameters with only the cursor key changed, to the previous page's next cursor |
| `Pagination.RecordsAppend` | bybit/asset/asset.go:70 | appending a fetch appends its page's records after all earlier records |
| `Pagination.AllOrNothing` | bybit/asset/asset.go:112-123 | a finished call succeeds exactly when every fetch decoded a page; a failed call carries the error of its last fetch, the only failed one, and no records |
| `Pagination.LastCursorSeen` | bybit/asset/asset.go:133 | after the loop the request's cursor is the next cursor of the second-to-last page, or its own cursor when the first fetch was already the last |
| `Pagination.ScriptedConversation` | bybit/asset/asset.go:166-190 | a server that answers fetch i with reply i, where every reply but the last has a next cursor, gets exactly those replies, one fetch each |
| `Pagination.RecordsOfPages` | bybit/asset/asset.go:181 | the records of a run of decoded pages are their lists concatenated in fetch order |
| `Pagination.Termination` | bybit/asset/asset.go:126-131 | for a server that answers fetch i with page i whatever the parameters sent: if page k is the first without a next cursor, the call makes exactly k fetches and returns all k lists in order, with retCode 0, retMsg "OK" and no cursor, whatever the last page said |
| `Pagination.SinglePage` | bybit/asset/asset.go:73-81 | a first page without a next cursor means one fetch and a response holding exactly that page's records |
| `Pagination.AbortOnFailure` | bybit/asset/asset.go:167-178 | a failure after any number of pages with cursors ends the call at that fetch with its error and none of the records already read |
| `Pagination.OrderExample` | bybit/asset/asset.go:70 | pages ["a","b"] with cursor "X" and then ["c"] with none give exactly "abc" |
| `Asset.GetCoinExchangeRecords` | bybit/asset/asset.go:33-83 | the fetches made are exactly the specified conversation that starts from the request's parameters; the result is its outcome, and the request's cursor is left at the last next cursor seen, other fields unchanged |
| `Asset.GetDeliveryRecords` | bybit/asset/asset.go:84-142 | the fetches made are exactly the specified conversation that starts from the request's parameters; the result is its outcome, and the request's cursor is left at the last next cursor seen, other fields unchanged |
| `Asset.GetSessionSettlementRecords` | bybit/asset/asset.go:143-198 | the fetches made are exactly the specified conversation that starts from the request's parameters, and the result is its outcome; Go only reads the request through its pointer, so the model takes the request as a value, and only the method's own parameter map changes |
| `Asset.GetAssetInfo` | bybit/asset/asset.go:200-222 | returns exactly what a single fetch with the asset-information parameters decodes, or that fetch's error |
| `Asset.GetAllCoinsBalance` | bybit/asset/asset.go:223-253 | returns exactly what a single fetch with the coin-balance parameters decodes, or that fetch's error |

## Notes on the code

- Besides fetch and decode failures, a `json.Marshal` failure is returned unwrapped in every endpoint (`asset.go:58-61`, `asset.go:116-119`, `asset.go:171-174`, `asset.go:212-215`, `asset.go:242-245`). The model tags it `MarshalError`.
- Fetch and decode failures are wrapped with a message naming the phase and the endpoint's records, such as "error fetching coin exchange records" or "error parsing delivery records response" (`asset.go:56`, `asset.go:66`, `asset.go:114`, `asset.go:122`, `asset.go:169`, `asset.go:177`); the single-fetch endpoints name their data the same way (`asset.go:210`, `asset.go:218`, `asset.go:239`, `asset.go:249`). The messages do not include the path. The model keeps the phase and the underlying cause.
- The coin-exchange and delivery loops rebuild the parameters from the request each round. The settlement endpoint builds them once and writes the cursor into the map, leaving the caller's request unchanged (`asset.go:144-160`, `asset.go:188`). The model keeps both variants. `AssetQueries.CoinExchangeCursorUpdate` and `AssetQueries.DeliveryCursorUpdate` show that rebuilding sends the same parameters as writing the cursor into the map.

## Left out

- Asset.GetCoinExchangeRecords: requires that the server end the listing within a ghost number of fetches. Go loops forever on a server that never returns an empty cursor, and a terminating Dafny method cannot express that.
- Asset.GetDeliveryRecords: requires that the listing end within a ghost number of fetches, for the same reason.
- Asset.GetSessionSettlementRecords: requires that the listing end within a ghost number of fetches, for the same reason.
- The HTTP transport and request signing (`client.Client.Get`) and the JSON codec (`json.Marshal`, `json.Unmarshal`) are abstract functions. The transport also receives the number of fetches already made in the same call, so that a server's answers can change over time.
- Error message text from `fmt.Errorf` is not modelled. Only the failing phase and the underlying cause are kept.
- The asset package's request and response struct declarations are not part of this model. Field names come from their use in `asset.go`. A page keeps `retCode`, `retMsg`, the record list (`list`, or `orderBody` for coin exchange) and `nextPageCursor`. The single-fetch endpoints return whatever type their decoder produces.
- Go's `int` fields (`limit`, `withBonus`) are modelled as 64-bit integers, like the `int64` timestamps. Rendering them involves no overflow.
- `New`, the `Asset` interface and `bybit/trade/structs.go` are wiring and plain data with no behaviour.
- A nil request pointer makes every Go endpoint panic on its first field read (`asset.go:40`, `asset.go:91`, `asset.go:145`, `asset.go:202`, `asset.go:225`). The model's requests are never nil: `Ref` is a non-null reference, and the other three endpoints take the request as a value.
- Concurrency, retries and rate limiting do not exist in this code.
