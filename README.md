# lumibot futures broker adapter and Yahoo cache helper, in Dafny

This project models two parts of the lumibot trading framework and proves properties of them.

**The futures broker adapter** (`lumibot/brokers/vanilla.py`) connects the framework to a futures trading gateway. It does five things:

- reads the account balances;
- turns the gateway's positions into framework positions, using the symbol field of the `"<exchange>,<symbol>"` instrument reference;
- turns the gateway's orders into framework limit orders, translating the gateway's order states into canonical statuses;
- looks an order up by its identifier among the open and closed orders of every instrument in the trade list;
- submits and cancels limit orders.

The gateway client is modelled as an oracle, the datatype `Gateway`, whose queries and request answers are total functions. State-changing requests go through the `TradeClient` class, which records them in order. The framework order is a class. The adapter updates its identifier, status, raw payload and error in place.

**The Yahoo helper** (`lumibot/tools/yahoo_helper.py`) serves day bars and symbol descriptions. It returns the cached copy when the cache has an up-to-date file. Otherwise it downloads the data and writes it to the cache. For several symbols it makes one grouped download of every symbol that missed the cache. On top of this it formats the bars, with or without price adjustment, and extracts the dividend and split series.

In the model:

- The cache folder is a value: whether caching is enabled, plus a map from `"<symbol>_<type>.pickle"` file names to the stored records. Every operation takes the folder and returns it.
- The downloader is an oracle.
- The current date is the parameter `today`.
- The multi-symbol fetch and the per-frame loops are methods:
  - the fetch and its cache pass are proved equal to specification functions (`FetchManySpec`, `PartitionCached`), and the properties are proved about those functions;
  - the per-frame loops (`FormatEach`, `SelectNonZero`) and the dividend and split methods are proved to meet a relation between input and result (`FormattedAll`, `NonZeroOfFormatted`). The relation fixes every entry, but not which failing frame's error is raised.

Files:

- `common.dfy`: Option, Result and the Python exception kinds.
- `text.dfy`: `str.split`, ASCII `str.lower` and substring containment.
- `vanilla.dfy`: the broker adapter.
- `yahoo_helper.dfy`: the cache helper.

## Model

| member | source | states |
|---|---|---|
| Vanilla.InstrumentName | lumibot/brokers/vanilla.py:242 | Its definition is the reference `"<exchange>,<symbol>"` the adapter sends to the gateway; InstrumentRoundTrip shows it parses back. |
| Vanilla.ParseInstrument | lumibot/brokers/vanilla.py:78 | Reading field 1 of the reference split at commas succeeds exactly when the reference contains a comma. Otherwise it raises IndexError. Neither parsed field contains a comma. |
| Vanilla.InstrumentRoundTrip | lumibot/brokers/vanilla.py:228-246 | The reference built from a comma-free exchange and symbol parses back to that exchange and symbol. |
| Vanilla.ParseInstrumentDropsExtraFields | lumibot/brokers/vanilla.py:132-138 | A reference with more than two fields parses as its first two; the rest is dropped. |
| Vanilla.ParsedInstrumentIsLeadingFields | lumibot/brokers/vanilla.py:132-138 | A successful parse read the leading `"<exchange>,<symbol>"` of the reference, which then ends or continues after a comma. |
| Text.SplitFieldCount | lumibot/brokers/vanilla.py:78 | `split(",")` yields one field more than there are commas. |
| Text.SplitAfterField | lumibot/brokers/vanilla.py:132 | Splitting `a + "," + b`, with no comma in `a`, gives `a` followed by the fields of `b`. |
| Text.Split | lumibot/brokers/vanilla.py:78 | `split` on one character gives at least one field, and no field contains the separator. |
| Text.Lower | lumibot/tools/yahoo_helper.py:64 | `str.lower` keeps the length, lower-cases each ASCII capital in place, and leaves no capital letter. |
| Text.Contains | lumibot/brokers/vanilla.py:91 | Its definition is Python's `asset in name` on two strings: the asset occurs at some position of the name. |
| Text.LowerOfLowercase | lumibot/tools/yahoo_helper.py:18 | Lower-casing a string without capitals changes nothing, so the stored type of `day_data` and `info` is the constant itself. |
| Vanilla.StatusAfter | lumibot/brokers/vanilla.py:146-151 | SUBMITTING, NOT_TRADED and PART_TRADED give open; ALL_TRADED gives filled; CANCELLED, REJECTED and CANCEL_REJECTED give canceled. Any other state leaves the status unchanged. |
| Vanilla.VanillaBroker.GetBalancesAtBroker | lumibot/brokers/vanilla.py:56-72 | Cash is the available funds and total liquidation value is the equity of the `"all"` account query. The positions value is 0. A failing query's error propagates. |
| Vanilla.VanillaBroker.ParseBrokerPosition | lumibot/brokers/vanilla.py:74-84 | It succeeds exactly when the reference contains a comma. Then the position carries the strategy, the parsed symbol and the gateway size. Otherwise it raises IndexError. |
| Vanilla.VanillaBroker.PullBrokerPositions | lumibot/brokers/vanilla.py:95-103 | The positions of the `"all"` query; no positions when that query raises. |
| Vanilla.VanillaBroker.ParseBrokerPositions | lumibot/brokers/vanilla.py:105-112 | It succeeds exactly when every reference contains a comma. Then it returns one parsed position per gateway position, in order. |
| Vanilla.VanillaBroker.PullPositions | lumibot/brokers/vanilla.py:114-119 | It parses every pulled position, in order. It fails exactly when a pulled reference has no comma, and then with IndexError. A failing query gives no positions. |
| Vanilla.VanillaBroker.PullBrokerPosition | lumibot/brokers/vanilla.py:86-93 | It returns the first position whose reference contains the asset as a substring, and None exactly when no reference contains it. |
| Vanilla.VanillaBroker.PullPosition | lumibot/brokers/vanilla.py:121-126 | When a position matches, the result is the parse of the first match, whether that succeeds or raises IndexError. When none matches, reading `.size` of None raises AttributeError. |
| Vanilla.VanillaBroker.ParseBrokerOrder | lumibot/brokers/vanilla.py:129-153 | It builds a fresh limit order of asset type future. The order takes the reference's exchange and symbol, and the gateway's amount, direction, price and order id. Its status comes from the state table. It fails with IndexError exactly when the reference has no comma. |
| Vanilla.VanillaBroker.PullBrokerClosedOrders | lumibot/brokers/vanilla.py:165-170 | The closed orders of every trade-list entry, concatenated in order. The first failing query's error otherwise. |
| Vanilla.VanillaBroker.PullBrokerAllOrders | lumibot/brokers/vanilla.py:172-180 | For every trade-list entry, its open orders then its closed orders, concatenated in order. The first failing query's error otherwise. |
| Vanilla.VanillaBroker.PullBrokerOrder | lumibot/brokers/vanilla.py:155-163 | It returns the first order among all orders whose `id` is the identifier, and None exactly when no order has it. Scanning the closed orders a second time changes nothing. |
| Vanilla.MatchingMembers | lumibot/brokers/vanilla.py:161 | The list comprehension keeps exactly the orders carrying the identifier. |
| Vanilla.Matching | lumibot/brokers/vanilla.py:161 | The list comprehension never yields more orders than it scans. |
| Vanilla.MatchingAppend | lumibot/brokers/vanilla.py:159-161 | Filtering the concatenation of the order lists is concatenating their filtered lists. |
| Vanilla.MatchingHeadIsFirst | lumibot/brokers/vanilla.py:163 | `response[0]` is the earliest order in the list with the identifier. |
| Vanilla.LookupIgnoresRepeatedClosedOrders | lumibot/brokers/vanilla.py:157-163 | When the closed orders are among all orders, appending them again changes neither whether the lookup finds something nor what it finds. |
| Vanilla.AllOrdersCoverClosedOrders | lumibot/brokers/vanilla.py:165-180 | If every open-and-closed query succeeds, so does every closed query, and each closed order is among all orders. |
| Vanilla.ClosedOrdersScannedTwice | lumibot/brokers/vanilla.py:157-162 | Every closed order occurs at least twice in the list the lookup scans. |
| Vanilla.TruncateToInt | lumibot/brokers/vanilla.py:213 | Python's `int()` on a number truncates toward zero. |
| Vanilla.OpenRequestAsWritten | lumibot/brokers/vanilla.py:212-215 | As written, a buy sends open-long with the truncated quantity, and any other side sends open-short without a volume. Both carry the instrument and the limit price. |
| Vanilla.Submittable | lumibot/brokers/vanilla.py:199-209 | Only an order without an order class and of type limit reaches the gateway. |
| Vanilla.VanillaBroker.FlattenOrder | lumibot/brokers/vanilla.py:182-193 | An order flattens to the one-element list of itself. |
| Vanilla.VanillaBroker.CreateOrderArgs | lumibot/brokers/vanilla.py:228-246 | A non-limit order raises ValueError("Only support LIMIT order"). A limit order gives exactly the reference `"<exchange>,<symbol>"`, its quantity and its limit price. The reference parses back to its exchange and symbol when neither contains a comma. |
| Vanilla.VanillaBroker.Record | lumibot/brokers/vanilla.py:216-224 | An answer sets the identifier, the open status and the raw payload. An error is recorded on the order and leaves the other fields unchanged. |
| Vanilla.VanillaBroker.SubmitOrder | lumibot/brokers/vanilla.py:195-226 | It models submission as written. An order with an order class, or one that is not a limit order, sends nothing and is not returned. Otherwise exactly one request is sent: a buy is sent as open-long with the truncated quantity, a sell as open-short without a volume. The order is updated from the answer and returned. |
| Vanilla.AsWrittenSellIsNeverAcknowledged | lumibot/brokers/vanilla.py:215-217 | A sell request carries no volume, and even an accepted sell ends in AttributeError("id"). |
| Vanilla.AckAsWritten | lumibot/brokers/vanilla.py:215-221 | A buy's answer is used as is, and a failing call keeps the gateway's own exception on either side. An accepted sell ends in AttributeError("id"). |
| Vanilla.OpenRequest | lumibot/brokers/vanilla.py:212-215 | It sends open-long exactly for buy orders and open-short for every other side. |
| Vanilla.OpenRequestCarriesOrder | lumibot/brokers/vanilla.py:212-215 | The corrected request carries the order's instrument, price and truncated quantity on either side. |
| Vanilla.VanillaBroker.SubmitOrderCorrected | lumibot/brokers/vanilla.py:195-226 | Submission as intended: both sides send the volume, and the answer is recorded on the order. |
| Vanilla.CancelConfirmed | lumibot/brokers/vanilla.py:250-256 | Its definition is the cancel test: the call succeeded and its answer's id equals the order's identifier. |
| Vanilla.TradeClient.Send | lumibot/brokers/vanilla.py:213-215 | A gateway call appends its request to the log of sent requests and returns the gateway's answer to that request. |
| Vanilla.VanillaBroker.CancelOrder | lumibot/brokers/vanilla.py:248-256 | It sends one cancellation for the order's reference and identifier. The order becomes canceled only when the answer carries its own identifier; otherwise its status stays. |
| YahooHelper.IsUpToDate | lumibot/tools/yahoo_helper.py:22-40 | Day bars are fresh exactly when their last index entry is dated today; an empty index raises IndexError. A description is fresh exactly when it has no error flag and was updated today. Any other type is never fresh. A well-formed record never raises: a stale one gives False. |
| YahooHelper.MakeYahooData | lumibot/tools/yahoo_helper.py:16-19 | Its definition is `_YahooData.__init__`: the symbol, the lower-cased type and the data. |
| YahooHelper.CheckPickleFile | lumibot/tools/yahoo_helper.py:61-72 | A record is found exactly when caching is enabled and the `"<symbol>_<lower type>.pickle"` file exists. The record found is that file's content. |
| YahooHelper.DumpPickleFile | lumibot/tools/yahoo_helper.py:74-83 | It does nothing when caching is disabled and never changes whether caching is enabled. |
| YahooHelper.DumpThenCheck | lumibot/tools/yahoo_helper.py:61-83 | A dump is read back by the next check of the same symbol and type, and does not change what other symbols' checks of that type find. |
| YahooHelper.DumpLeavesOtherFiles | lumibot/tools/yahoo_helper.py:74-83 | A dump writes only its own file; every other file name keeps its presence and its content. |
| YahooHelper.DumpLeavesOtherType | lumibot/tools/yahoo_helper.py:61-83 | Dumping day bars never changes what a description check finds, and the other way round. |
| YahooHelper.PickleFileNameInjective | lumibot/tools/yahoo_helper.py:61-83 | For one type, different symbols have different cache files. |
| YahooHelper.PickleFileName | lumibot/tools/yahoo_helper.py:61-83 | The name is the symbol, an underscore, a part as long as the type, and ".pickle". |
| YahooHelper.PickleFileNameType | lumibot/tools/yahoo_helper.py:64 | The part between the underscore and ".pickle" is the lower-cased type. |
| YahooHelper.DayAndInfoFileNamesDiffer | lumibot/tools/yahoo_helper.py:61-83 | A day-bars file is never a description file. |
| YahooHelper.DumpKeepsValid | lumibot/tools/yahoo_helper.py:74-83 | Dumping day bars or a description keeps every file holding what a dump writes under that name. |
| YahooHelper.CachedIfFresh | lumibot/tools/yahoo_helper.py:193-197 | There is nothing to serve exactly when the file is missing or stale. The call raises exactly when the freshness check raises, and with its error. Data is served only when the check says fresh, and it is the file's data. |
| YahooHelper.FreshPayloadMatchesType | lumibot/tools/yahoo_helper.py:193-197 | A fresh day-bars file holds bars and a fresh description file holds a description. |
| YahooHelper.DownloadSymbolsDayData | lumibot/tools/yahoo_helper.py:169-187 | A single symbol is downloaded on its own and keyed by itself, and its download's error propagates unchanged. Several symbols go to the grouped download. |
| YahooHelper.FetchSymbolInfo | lumibot/tools/yahoo_helper.py:191-203 | It downloads exactly when caching is off or no fresh file exists. A cache hit succeeds with the file's description and leaves the folder unchanged. When caching is on and the freshness check raises, the fetch fails with that error. A download returns the downloader's answer. A successful download is written to the cache; a failure leaves the folder unchanged. The folder stays valid. |
| YahooHelper.FetchSymbolDayData | lumibot/tools/yahoo_helper.py:205-217 | The same, for day bars: a cache hit succeeds with the file's bars, a raising freshness check fails the fetch with its error, and a successful download is written to the cache whatever its dates. |
| YahooHelper.DownloadedDayDataIsServedFromCache | lumibot/tools/yahoo_helper.py:205-217 | Bars downloaded today are served by the next fetch without a download. This holds even when the first fetch was told not to read the cache. |
| YahooHelper.DownloadedInfoIsServedFromCache | lumibot/tools/yahoo_helper.py:191-203 | A description downloaded without an error and updated today is served by the next fetch without a download. |
| YahooHelper.ErroredInfoIsDownloadedAgain | lumibot/tools/yahoo_helper.py:191-203 | A description with its error flag set is downloaded again by the next fetch. |
| YahooHelper.DisabledCacheAlwaysDownloads | lumibot/tools/yahoo_helper.py:191-217 | With caching disabled every fetch downloads, and day-bars fetches leave the folder as it was. |
| YahooHelper.PartitionCachedSucceeds | lumibot/tools/yahoo_helper.py:223-230 | The cache pass completes exactly when no requested symbol's freshness check raises. |
| YahooHelper.PartitionCached | lumibot/tools/yahoo_helper.py:219-230 | The cache pass never leaves more symbols to download than were requested. |
| YahooHelper.PartitionCachedFirstError | lumibot/tools/yahoo_helper.py:223-230 | A failed cache pass fails with the error of the first symbol whose check raises. |
| YahooHelper.PartitionCachedMissing | lumibot/tools/yahoo_helper.py:221-230 | A symbol stays in the missing list as often as it was requested if its file is missing or stale, and not at all otherwise. |
| YahooHelper.Stale | lumibot/tools/yahoo_helper.py:224-230 | Its definition is the reference for the missing list: the requested symbols without a fresh file, in request order, each kept as often as it was requested. |
| YahooHelper.StaleAppend | lumibot/tools/yahoo_helper.py:224-230 | Selecting the stale symbols of a concatenation concatenates the selections, so the selection keeps the order. |
| YahooHelper.PartitionCachedMissingInOrder | lumibot/tools/yahoo_helper.py:221-230 | The missing list the cache pass leaves is exactly the stale symbols in request order. |
| YahooHelper.PartitionCachedHit | lumibot/tools/yahoo_helper.py:224-229 | A symbol is a hit exactly when it was requested and has a fresh file, and it then maps to that file's bars. |
| YahooHelper.PartitionErrorPersists | lumibot/tools/yahoo_helper.py:224-230 | Once a prefix of the symbols meets a failing check, the whole pass fails with that error. |
| YahooHelper.RemoveFirst | lumibot/tools/yahoo_helper.py:230 | `list.remove` of a present element removes exactly one element. |
| YahooHelper.RemoveFirstSkipsFront | lumibot/tools/yahoo_helper.py:230 | `list.remove` drops the first occurrence and keeps everything else in order. |
| YahooHelper.WrittenDayFilesContents | lumibot/tools/yahoo_helper.py:233-236 | Each downloaded symbol's bars are written under its own day-bars file name, and no other file is written. |
| YahooHelper.DumpAllKeepsValid | lumibot/tools/yahoo_helper.py:233-236 | Storing downloaded bars keeps the folder valid. |
| YahooHelper.FetchManySpec | lumibot/tools/yahoo_helper.py:219-238 | The fetch of several symbols keeps the folder valid. |
| YahooHelper.FetchSymbolsDayData | lumibot/tools/yahoo_helper.py:219-238 | The method computes exactly the specification `FetchManySpec`: the cache pass, one download of the missing symbols, then storing them. |
| YahooHelper.CollectCached | lumibot/tools/yahoo_helper.py:224-230 | The cache loop, with its `list.remove` bookkeeping, computes exactly the recursive partition `PartitionCached`. |
| YahooHelper.StoreDownloaded | lumibot/tools/yahoo_helper.py:233-236 | Dumping each downloaded frame in turn writes exactly the downloaded day-bars files. The result is the hits overlaid by the download. |
| YahooHelper.FetchManyRequestsExactlyTheStale | lumibot/tools/yahoo_helper.py:224-233 | The downloader is asked for exactly the requested symbols without a fresh file, each as often as it was requested, in request order. |
| YahooHelper.NothingDownloadedWhenAllFresh | lumibot/tools/yahoo_helper.py:232 | When every symbol has a fresh file, nothing is downloaded, the folder is unchanged and the fetch succeeds. |
| YahooHelper.FetchManyShape | lumibot/tools/yahoo_helper.py:219-238 | A successful fetch requests exactly the missing symbols. Its result is the hits overlaid by the downloaded bars. |
| YahooHelper.FetchManyResultSources | lumibot/tools/yahoo_helper.py:224-236 | Every downloaded symbol maps to its download. Every fresh symbol the download did not return maps to its cached bars. |
| YahooHelper.SingleMissingSymbolCompletesResult | lumibot/tools/yahoo_helper.py:169-238 | When only one symbol had to be downloaded, every requested symbol is in the result. |
| YahooHelper.DeleteColumn | lumibot/tools/yahoo_helper.py:90 | `del df[name]` removes every column of that name and raises KeyError exactly when there is none. |
| YahooHelper.DeleteColumnsDropsAll | lumibot/tools/yahoo_helper.py:88-108 | A run of deletions of distinct names succeeds exactly when every name is a column, and then drops just those columns. |
| YahooHelper.DeleteColumnsFailsOnFirstMissing | lumibot/tools/yahoo_helper.py:88-108 | A failing run raises KeyError for the first name that is not a column. |
| YahooHelper.WithoutTwice | lumibot/tools/yahoo_helper.py:88-92 | Dropping one set of names and then another is dropping their union. |
| YahooHelper.DeleteColumns | lumibot/tools/yahoo_helper.py:87-108 | A run of deletions keeps the index and can only fail with KeyError for one of its names. |
| YahooHelper.FormatDf | lumibot/tools/yahoo_helper.py:87-110 | Formatting keeps the index and can only fail with KeyError for a column the mode drops. |
| YahooHelper.RenameColumn | lumibot/tools/yahoo_helper.py:95-101 | Its definition renames a column whose name is a key of the table and keeps its values; any other column stays. |
| YahooHelper.Renamed | lumibot/tools/yahoo_helper.py:95-103 | `rename` maps each column through the renaming table and keeps the order and the values. |
| YahooHelper.FormatDfAdjusted | lumibot/tools/yahoo_helper.py:89-103 | With adjustment, formatting succeeds exactly when Adj Ratio, Close, Open, High and Low are all present. It drops them and renames the Adj price columns. |
| YahooHelper.FormatDfUnadjusted | lumibot/tools/yahoo_helper.py:104-108 | Without adjustment, formatting succeeds exactly when Adj Ratio, Adj Open, Adj High and Adj Low are present, and drops just those. |
| YahooHelper.FormatDfNeedsAdjRatio | lumibot/tools/yahoo_helper.py:87-110 | Either way a frame without Adj Ratio raises KeyError("Adj Ratio"). |
| YahooHelper.FormatDfAdjustedPrices | lumibot/tools/yahoo_helper.py:89-103 | After adjusted formatting no Adj column remains, and each Close column is an input Adj Close column renamed. |
| YahooHelper.FormatDfUnadjustedKeeps | lumibot/tools/yahoo_helper.py:104-108 | After unadjusted formatting every column except the four dropped ones remains. |
| YahooHelper.FirstColumn | lumibot/tools/yahoo_helper.py:281 | It finds a column with the name, and None exactly when there is none. |
| YahooHelper.FirstColumnIsFirst | lumibot/tools/yahoo_helper.py:281 | The column found is the first with that name: no earlier column has it. |
| YahooHelper.ColumnSeries | lumibot/tools/yahoo_helper.py:281 | `df[name]` raises KeyError exactly when the frame lacks the column. |
| YahooHelper.ColumnSeriesEntries | lumibot/tools/yahoo_helper.py:281 | The series pairs each index entry, in order, with the column's value at the same position. |
| YahooHelper.NonZero | lumibot/tools/yahoo_helper.py:282 | It keeps exactly the series entries that are non-zero. |
| YahooHelper.NonZeroAppend | lumibot/tools/yahoo_helper.py:282 | The filter keeps the order of the series: filtering a concatenation is concatenating the filtered pieces. |
| YahooHelper.NonZeroKeepsNonZeroSeries | lumibot/tools/yahoo_helper.py:282 | A series with no zero entry passes the filter unchanged. |
| YahooHelper.NonZeroColumn | lumibot/tools/yahoo_helper.py:281-282 | It returns the non-zero entries of the column, and raises KeyError when the column is missing. |
| YahooHelper.NonZeroColumnInOrder | lumibot/tools/yahoo_helper.py:281-282 | The column's non-zero entries are the order-keeping filter of its series. |
| YahooHelper.GetSymbolDayData | lumibot/tools/yahoo_helper.py:246-250 | It returns the single-symbol fetch followed by formatting, with the fetch's folder and requests. |
| YahooHelper.GetSymbolData | lumibot/tools/yahoo_helper.py:252-259 | The day timestep is the day-data call. Any other timestep raises ValueError("Unknown timestep ...") before anything is fetched. |
| YahooHelper.GetSymbolDividends | lumibot/tools/yahoo_helper.py:277-282 | It returns the non-zero entries of the adjusted bars' Dividends column; the fetch's errors propagate. |
| YahooHelper.GetSymbolSplits | lumibot/tools/yahoo_helper.py:294-299 | The same for the Stock Splits column. |
| YahooHelper.GetSymbolsDayData | lumibot/tools/yahoo_helper.py:261-266 | It returns the multi-symbol fetch with every frame formatted. It succeeds exactly when every frame formats, and otherwise fails with the error of a frame that does not. |
| YahooHelper.FormatEach | lumibot/tools/yahoo_helper.py:263-265 | The loop formats every frame under the same key; the first failure ends it. |
| YahooHelper.GetSymbolsData | lumibot/tools/yahoo_helper.py:268-275 | The day timestep is the multi-symbol day-data call. Any other timestep raises ValueError before anything is fetched. |
| YahooHelper.SelectNonZero | lumibot/tools/yahoo_helper.py:287-290 | Every frame gives its column's non-zero entries. It raises KeyError exactly when some frame lacks the column. |
| YahooHelper.GetSymbolsDividends | lumibot/tools/yahoo_helper.py:284-292 | It uses the multi-symbol fetch's folder, requests and errors. It succeeds exactly when every fetched frame formats and has a Dividends column. Each symbol then maps to the non-zero Dividends of its formatted frame. Otherwise the error is a formatting error or KeyError("Dividends") of a frame that fails. When some frame fails to format, the error is always a formatting error, because every frame is formatted before any column is read. |
| YahooHelper.GetSymbolsSplits | lumibot/tools/yahoo_helper.py:301-309 | The same for the Stock Splits column, a formatting error again taking precedence over KeyError("Stock Splits"). |

## Left out

- File I/O, pickling and the creation of the cache folder are left out. Whether the folder could be created (`CACHING_ENABLED`) is the folder's `enabled` flag.
- The clock is left out. The current date is the parameter `today`.
- Logging, colored output and the gateway connection setup are left out.
- The yfinance downloads are oracles: `download_symbol_info`, `download_symbol_day_data`, and the grouped download's column levels. `process_df`'s floating-point ratios are not modelled.
- `dropna` is not modelled: values are reals and have no NaN.
- `str.lower` is ASCII only.
- `lumibot/entities` (`Order`, `Position`, `Asset`) is not part of this model. The order is reduced to the fields the adapter reads and writes, and `set_error` is taken to only record the error.
- `get_symbol_actions` and `get_symbols_actions` are left out. They filter two columns at once with `dropna(how="all")` and `fillna(0)`, which rely on NaN, and NaN is not modelled.
- The vanilla.py clock and market-hours stubs, `is_margin_enabled`, the `NotImplementedError` waits and the empty stream hooks are left out: they hold no logic.
- The `VanillaData` data source is not part of this model.
- `get_historical_account_value`, `get_symbol_info` and `_YahooData.file_name` are left out:
  - `get_historical_account_value` is a constant stub.
  - `get_symbol_info` is exactly `fetch_symbol_info`.
  - `_YahooData.file_name` is never read. It keeps the type without lower-casing.
- YahooHelper.FormatDf works on values. When a `del` raises midway, the partly modified frame is never read by the callers, so only the error is modelled.
- Python dict iteration order is not modelled. The loops below visit the keys in an unspecified order:
- FormatEach: when several frames fail to format, it states that the error is one of theirs, not which one.
- SelectNonZero: when several frames fail, it states that the error is one of theirs, not which one.
- GetSymbolsDayData, GetSymbolsData, GetSymbolsDividends, GetSymbolsSplits: the same, through the loops above.
- StoreDownloaded: it dumps in an unspecified order. That cannot matter, because distinct symbols have distinct files.
- pandas' `df[name]` returns every column of that name when the name is duplicated. The model takes the first such column (YahooHelper.FirstColumn), which is the whole answer for frames whose column names are distinct.
- The gateway is pure: asking the same question twice gets the same answer. Between the all-orders and closed-orders queries of `_pull_broker_order` the gateway state is taken not to change.

## Findings

| source | as written | input that shows it | evidently intended | confidence | as-written member | corrected member |
|---|---|---|---|---|---|---|
| lumibot/brokers/vanilla.py:215 | The sell branch calls `future_open_short(args[0], args[2])` without the volume and binds `response` to a tuple of the answer and `int(args[1])`. Reading `response.id` then raises AttributeError. | Any submittable limit order whose side is "sell": the request carries no volume, and even an accepted answer ends in AttributeError("id"). | `future_open_short(args[0], args[2], int(args[1]))`, with the answer recorded as on the buy side. | not executed | Vanilla.AsWrittenSellIsNeverAcknowledged | Vanilla.VanillaBroker.SubmitOrderCorrected |
