/**
 * The cache-or-download logic of the market-data helper. Day bars and symbol
 * descriptions are served from a folder of cache files when an up-to-date copy is
 * there, and otherwise downloaded and written to that folder.
 *
 * The cache folder is a value (whether caching could be enabled, and a map from file
 * name to the stored record) that every operation takes and returns; the downloader
 * is an oracle: a total function of the requested symbols that returns data or raises.
 * The current date is a parameter, `today`.
 */
module YahooHelper {
  import opened Common
  import opened Text

  const DayData: string := "day_data"
  const InfoData: string := "info"

  /** A point in time: its calendar date (a day number) and the second within that day. */
  datatype Timestamp = Timestamp(day: int, second: nat)

  datatype Column = Column(name: string, values: seq<real>)

  /** A dataframe: a time index and named columns of values aligned with it. */
  datatype DataFrame = DataFrame(index: seq<Timestamp>, columns: seq<Column>)

  /** A symbol's description; only the fields the helper itself reads. */
  datatype SymbolInfo = SymbolInfo(ticker: string, lastUpdate: Timestamp, error: bool)

  datatype Payload = Bars(frame: DataFrame) | Info(info: SymbolInfo)

  /** A cached record: its symbol, its lower-cased data type and its data. */
  datatype YahooData = YahooData(symbol: string, dataType: string, data: Payload)

  function MakeYahooData(symbol: string, dataType: string, data: Payload): YahooData
  {
    YahooData(symbol, Lower(dataType), data)
  }

  /** Day bars are fresh when their last index entry is dated today; a description, when it has no error and was updated today. */
  function IsUpToDate(d: YahooData, today: int): (r: Result<bool>)
    ensures d.dataType != DayData && d.dataType != InfoData ==> r == Ok(false)
    ensures d.dataType == InfoData && d.data.Info? && d.data.info.error ==> r == Ok(false)
    ensures d.dataType == DayData && d.data.Bars? && d.data.frame.index == [] ==> r == Err(IndexError)
    ensures (d.dataType == DayData && d.data.Bars? && d.data.frame.index != []) || (d.dataType == InfoData && d.data.Info?) ==> r.Ok?
    ensures r == Ok(true) <==>
      || (d.dataType == DayData && d.data.Bars? && |d.data.frame.index| > 0 &&
          d.data.frame.index[|d.data.frame.index| - 1].day == today)
      || (d.dataType == InfoData && d.data.Info? && !d.data.info.error && d.data.info.lastUpdate.day == today)
  {
    if d.dataType == DayData then
      match d.data
      case Bars(frame) =>
        if |frame.index| == 0 then Err(IndexError) else Ok(frame.index[|frame.index| - 1].day == today)
      case Info(_) => Err(AttributeError("index"))
    else if d.dataType == InfoData then
      match d.data
      case Info(info) => if info.error then Ok(false) else Ok(info.lastUpdate.day == today)
      case Bars(_) => Err(AttributeError("date"))
    else
      Ok(false)
  }

  // ---------------------------------------------------------------- cache files

  /** "<symbol>_<lower-cased type>.pickle" */
  function PickleFileName(symbol: string, dataType: string): (name: string)
    ensures |name| == |symbol| + |dataType| + 8
    ensures name[..|symbol|] == symbol && name[|symbol|] == '_' && name[|name| - 7..] == ".pickle"
  {
    symbol + "_" + Lower(dataType) + ".pickle"
  }

  /** Between the '_' and ".pickle" the name holds the lower-cased type. */
  lemma PickleFileNameType(symbol: string, dataType: string)
    ensures var name := PickleFileName(symbol, dataType); name[|symbol| + 1 .. |name| - 7] == Lower(dataType)
  {
    var name := PickleFileName(symbol, dataType);
    assert name == (symbol + "_") + Lower(dataType) + ".pickle";
  }

  /** For one data type, different symbols have different cache files. */
  lemma PickleFileNameInjective(a: string, b: string, dataType: string)
    requires PickleFileName(a, dataType) == PickleFileName(b, dataType)
    ensures a == b
  {
    var tail := "_" + Lower(dataType) + ".pickle";
    assert PickleFileName(a, dataType) == a + tail;
    assert PickleFileName(b, dataType) == b + tail;
    assert a == (a + tail)[..|a|];
    assert b == (b + tail)[..|b|];
  }

  /** A day-bars file is never a description file, whatever the two symbols. */
  lemma DayAndInfoFileNamesDiffer(a: string, b: string)
    ensures PickleFileName(a, DayData) != PickleFileName(b, InfoData)
  {
    LowerOfLowercase(DayData);
    LowerOfLowercase(InfoData);
    var x := PickleFileName(a, DayData);
    var y := PickleFileName(b, InfoData);
    assert x == a + "_day_data.pickle";
    assert y == b + "_info.pickle";
    assert x[|x| - 11] == 'd';
    assert y[|y| - 11] == 'i';
  }

  /** The cache folder: whether caching is enabled, and the records stored by file name. */
  datatype CacheFolder = CacheFolder(enabled: bool, files: map<string, YahooData>)

  /** Every file holds what a dump of day bars or of a description writes under that name. */
  ghost predicate Valid(folder: CacheFolder)
  {
    forall name :: name in folder.files ==> StoredAt(name, folder.files[name])
  }

  ghost predicate StoredAt(name: string, d: YahooData)
  {
    && (d.dataType == DayData || d.dataType == InfoData)
    && name == PickleFileName(d.symbol, d.dataType)
    && (d.dataType == DayData <==> d.data.Bars?)
  }

  function CheckPickleFile(folder: CacheFolder, symbol: string, dataType: string): (r: Option<YahooData>)
    ensures r.Some? <==> folder.enabled && PickleFileName(symbol, dataType) in folder.files
    ensures r.Some? ==> r.value == folder.files[PickleFileName(symbol, dataType)]
  {
    var name := PickleFileName(symbol, dataType);
    if folder.enabled && name in folder.files then Some(folder.files[name]) else None
  }

  function DumpPickleFile(folder: CacheFolder, symbol: string, dataType: string, data: Payload): (r: CacheFolder)
    ensures r.enabled == folder.enabled
    ensures !folder.enabled ==> r == folder
  {
    if folder.enabled then
      folder.(files := folder.files[PickleFileName(symbol, dataType) := MakeYahooData(symbol, dataType, data)])
    else
      folder
  }

  /** A dump is read back by the next check of the same symbol and type, and leaves other symbols' files alone. */
  lemma DumpThenCheck(folder: CacheFolder, symbol: string, dataType: string, data: Payload, other: string)
    requires folder.enabled
    ensures CheckPickleFile(DumpPickleFile(folder, symbol, dataType, data), symbol, dataType) ==
      Some(MakeYahooData(symbol, dataType, data))
    ensures other != symbol ==>
      CheckPickleFile(DumpPickleFile(folder, symbol, dataType, data), other, dataType) ==
      CheckPickleFile(folder, other, dataType)
  {
    if other != symbol && PickleFileName(other, dataType) == PickleFileName(symbol, dataType) {
      PickleFileNameInjective(other, symbol, dataType);
    }
  }

  /** A dump writes only its own file: every other file is left as it was. */
  lemma DumpLeavesOtherFiles(folder: CacheFolder, symbol: string, dataType: string, data: Payload, name: string)
    requires name != PickleFileName(symbol, dataType)
    ensures var after := DumpPickleFile(folder, symbol, dataType, data).files;
      (name in after <==> name in folder.files) && (name in folder.files ==> after[name] == folder.files[name])
  {
  }

  /** Dumping day bars never changes what a description check finds, and dumping a description never changes what a day-bars check finds. */
  lemma DumpLeavesOtherType(folder: CacheFolder, symbol: string, data: Payload, other: string)
    ensures CheckPickleFile(DumpPickleFile(folder, symbol, DayData, data), other, InfoData) == CheckPickleFile(folder, other, InfoData)
    ensures CheckPickleFile(DumpPickleFile(folder, symbol, InfoData, data), other, DayData) == CheckPickleFile(folder, other, DayData)
  {
    DayAndInfoFileNamesDiffer(symbol, other);
    DayAndInfoFileNamesDiffer(other, symbol);
  }

  /** Dumping day bars or a description keeps the folder valid. */
  lemma DumpKeepsValid(folder: CacheFolder, symbol: string, dataType: string, data: Payload)
    requires Valid(folder)
    requires (dataType == DayData && data.Bars?) || (dataType == InfoData && data.Info?)
    ensures Valid(DumpPickleFile(folder, symbol, dataType, data))
  {
    LowerOfLowercase(DayData);
    LowerOfLowercase(InfoData);
  }

  /** The cached payload when there is an up-to-date cache file; Ok(None) when there is none or it is stale. */
  function CachedIfFresh(folder: CacheFolder, symbol: string, dataType: string, today: int): (r: Result<Option<Payload>>)
    ensures r == Ok(None) <==>
      CheckPickleFile(folder, symbol, dataType).None? ||
      IsUpToDate(CheckPickleFile(folder, symbol, dataType).value, today) == Ok(false)
    ensures r.Ok? && r.value.Some? ==>
      CheckPickleFile(folder, symbol, dataType).Some? &&
      IsUpToDate(CheckPickleFile(folder, symbol, dataType).value, today) == Ok(true) &&
      r.value.value == CheckPickleFile(folder, symbol, dataType).value.data
    ensures r.Err? <==>
      CheckPickleFile(folder, symbol, dataType).Some? && IsUpToDate(CheckPickleFile(folder, symbol, dataType).value, today).Err?
    ensures r.Err? ==> r.error == IsUpToDate(CheckPickleFile(folder, symbol, dataType).value, today).error
  {
    match CheckPickleFile(folder, symbol, dataType)
    case None => Ok(None)
    case Some(d) =>
      match IsUpToDate(d, today)
      case Err(e) => Err(e)
      case Ok(upToDate) => if upToDate then Ok(Some(d.data)) else Ok(None)
  }

  /** In a valid folder, a fresh day-bars file holds bars and a fresh description file holds a description. */
  lemma FreshPayloadMatchesType(folder: CacheFolder, symbol: string, dataType: string, today: int)
    requires Valid(folder)
    requires dataType == DayData || dataType == InfoData
    requires CachedIfFresh(folder, symbol, dataType, today).Ok? && CachedIfFresh(folder, symbol, dataType, today).value.Some?
    ensures dataType == DayData ==> CachedIfFresh(folder, symbol, dataType, today).value.value.Bars?
    ensures dataType == InfoData ==> CachedIfFresh(folder, symbol, dataType, today).value.value.Info?
  {
    var name := PickleFileName(symbol, dataType);
    var d := folder.files[name];
    assert StoredAt(name, d);
    if d.dataType != dataType {
      if dataType == DayData {
        DayAndInfoFileNamesDiffer(symbol, d.symbol);
      } else {
        DayAndInfoFileNamesDiffer(d.symbol, symbol);
      }
    }
  }

  // ---------------------------------------------------------------- downloads

  /** The downloader: one symbol's description, one symbol's day bars, several symbols' day bars by symbol. */
  datatype Downloader = Downloader(
    symbolInfo: string -> Result<SymbolInfo>,
    symbolDayData: string -> Result<DataFrame>,
    symbolsDayData: seq<string> -> Result<map<string, DataFrame>>)

  /** A single symbol is downloaded on its own and keyed by itself; several go to the grouped download. */
  function DownloadSymbolsDayData(dl: Downloader, symbols: seq<string>): (r: Result<map<string, DataFrame>>)
    ensures |symbols| == 1 ==> (r.Ok? <==> dl.symbolDayData(symbols[0]).Ok?)
    ensures |symbols| == 1 && r.Ok? ==> r.value.Keys == {symbols[0]} && r.value[symbols[0]] == dl.symbolDayData(symbols[0]).value
    ensures |symbols| == 1 && r.Err? ==> r.error == dl.symbolDayData(symbols[0]).error
    ensures |symbols| != 1 ==> r == dl.symbolsDayData(symbols)
  {
    if |symbols| == 1 then
      match dl.symbolDayData(symbols[0])
      case Err(e) => Err(e)
      case Ok(frame) => Ok(map[symbols[0] := frame])
    else
      dl.symbolsDayData(symbols)
  }

  /** What a fetch returns, the cache folder after it, and the symbols it asked the downloader for ([] when none). */
  datatype Fetched<T> = Fetched(result: Result<T>, folder: CacheFolder, requested: seq<string>)

  function FetchSymbolInfo(folder: CacheFolder, dl: Downloader, today: int, symbol: string, caching: bool): (r: Fetched<SymbolInfo>)
    requires Valid(folder)
    ensures Valid(r.folder)
    ensures r.requested == [] <==> caching && CachedIfFresh(folder, symbol, InfoData, today) != Ok(None)
    ensures r.requested == [] ==> r.folder == folder
    ensures r.requested == [] && r.result.Ok? ==> CachedIfFresh(folder, symbol, InfoData, today) == Ok(Some(Info(r.result.value)))
    ensures caching && CachedIfFresh(folder, symbol, InfoData, today).Err? ==> r.result == Err(CachedIfFresh(folder, symbol, InfoData, today).error)
    ensures caching && CachedIfFresh(folder, symbol, InfoData, today).Ok? && CachedIfFresh(folder, symbol, InfoData, today).value.Some? ==>
      r.result.Ok? && CachedIfFresh(folder, symbol, InfoData, today) == Ok(Some(Info(r.result.value)))
    ensures r.requested != [] ==> r.requested == [symbol] && r.result == dl.symbolInfo(symbol)
    ensures r.requested != [] && r.result.Ok? ==> r.folder == DumpPickleFile(folder, symbol, InfoData, Info(r.result.value))
    ensures r.result.Err? ==> r.folder == folder
  {
    var cached := if caching then CachedIfFresh(folder, symbol, InfoData, today) else Ok(None);
    match cached
    case Err(e) => Fetched(Err(e), folder, [])
    case Ok(Some(payload)) =>
      FreshPayloadMatchesType(folder, symbol, InfoData, today);
      Fetched(Ok(payload.info), folder, [])
    case Ok(None) =>
      match dl.symbolInfo(symbol)
      case Err(e) => Fetched(Err(e), folder, [symbol])
      case Ok(info) =>
        DumpKeepsValid(folder, symbol, InfoData, Info(info));
        Fetched(Ok(info), DumpPickleFile(folder, symbol, InfoData, Info(info)), [symbol])
  }

  function FetchSymbolDayData(folder: CacheFolder, dl: Downloader, today: int, symbol: string, caching: bool): (r: Fetched<DataFrame>)
    requires Valid(folder)
    ensures Valid(r.folder)
    ensures r.requested == [] <==> caching && CachedIfFresh(folder, symbol, DayData, today) != Ok(None)
    ensures r.requested == [] ==> r.folder == folder
    ensures r.requested == [] && r.result.Ok? ==> CachedIfFresh(folder, symbol, DayData, today) == Ok(Some(Bars(r.result.value)))
    ensures caching && CachedIfFresh(folder, symbol, DayData, today).Err? ==> r.result == Err(CachedIfFresh(folder, symbol, DayData, today).error)
    ensures caching && CachedIfFresh(folder, symbol, DayData, today).Ok? && CachedIfFresh(folder, symbol, DayData, today).value.Some? ==>
      r.result.Ok? && CachedIfFresh(folder, symbol, DayData, today) == Ok(Some(Bars(r.result.value)))
    ensures r.requested != [] ==> r.requested == [symbol] && r.result == dl.symbolDayData(symbol)
    ensures r.requested != [] && r.result.Ok? ==> r.folder == DumpPickleFile(folder, symbol, DayData, Bars(r.result.value))
    ensures r.result.Err? ==> r.folder == folder
  {
    var cached := if caching then CachedIfFresh(folder, symbol, DayData, today) else Ok(None);
    match cached
    case Err(e) => Fetched(Err(e), folder, [])
    case Ok(Some(payload)) =>
      FreshPayloadMatchesType(folder, symbol, DayData, today);
      Fetched(Ok(payload.frame), folder, [])
    case Ok(None) =>
      match dl.symbolDayData(symbol)
      case Err(e) => Fetched(Err(e), folder, [symbol])
      case Ok(frame) =>
        DumpKeepsValid(folder, symbol, DayData, Bars(frame));
        Fetched(Ok(frame), DumpPickleFile(folder, symbol, DayData, Bars(frame)), [symbol])
  }

  /**
   * Bars downloaded today are served from the cache by the next fetch, without a download;
   * the first fetch writes the cache even when it was asked not to read it.
   */
  lemma DownloadedDayDataIsServedFromCache(folder: CacheFolder, dl: Downloader, today: int, symbol: string, caching: bool)
    requires Valid(folder) && folder.enabled
    requires dl.symbolDayData(symbol).Ok?
    requires var f := dl.symbolDayData(symbol).value; |f.index| > 0 && f.index[|f.index| - 1].day == today
    requires !caching || CachedIfFresh(folder, symbol, DayData, today) == Ok(None)
    ensures var first := FetchSymbolDayData(folder, dl, today, symbol, caching);
      var second := FetchSymbolDayData(first.folder, dl, today, symbol, true);
      first.requested == [symbol] && second.requested == [] &&
      second.result == first.result && second.folder == first.folder
  {
    LowerOfLowercase(DayData);
    var frame := dl.symbolDayData(symbol).value;
    DumpThenCheck(folder, symbol, DayData, Bars(frame), symbol);
  }

  /** A description downloaded with its error flag set is never served from the cache: the next fetch downloads again. */
  lemma ErroredInfoIsDownloadedAgain(folder: CacheFolder, dl: Downloader, today: int, symbol: string, caching: bool)
    requires Valid(folder) && folder.enabled
    requires dl.symbolInfo(symbol).Ok? && dl.symbolInfo(symbol).value.error
    requires !caching || CachedIfFresh(folder, symbol, InfoData, today) == Ok(None)
    ensures var first := FetchSymbolInfo(folder, dl, today, symbol, caching);
      var second := FetchSymbolInfo(first.folder, dl, today, symbol, true);
      first.requested == [symbol] && second.requested == [symbol]
  {
    LowerOfLowercase(InfoData);
    var info := dl.symbolInfo(symbol).value;
    DumpThenCheck(folder, symbol, InfoData, Info(info), symbol);
  }

  /** A description downloaded today without an error is served by the next fetch, without a download. */
  lemma DownloadedInfoIsServedFromCache(folder: CacheFolder, dl: Downloader, today: int, symbol: string, caching: bool)
    requires Valid(folder) && folder.enabled
    requires dl.symbolInfo(symbol).Ok? && !dl.symbolInfo(symbol).value.error
    requires dl.symbolInfo(symbol).value.lastUpdate.day == today
    requires !caching || CachedIfFresh(folder, symbol, InfoData, today) == Ok(None)
    ensures var first := FetchSymbolInfo(folder, dl, today, symbol, caching);
      var second := FetchSymbolInfo(first.folder, dl, today, symbol, true);
      first.requested == [symbol] && second.requested == [] &&
      second.result == first.result && second.folder == first.folder
  {
    LowerOfLowercase(InfoData);
    var info := dl.symbolInfo(symbol).value;
    DumpThenCheck(folder, symbol, InfoData, Info(info), symbol);
  }

  /** With caching disabled, every fetch downloads. */
  lemma DisabledCacheAlwaysDownloads(folder: CacheFolder, dl: Downloader, today: int, symbol: string, caching: bool)
    requires Valid(folder) && !folder.enabled
    ensures FetchSymbolDayData(folder, dl, today, symbol, caching).requested == [symbol]
    ensures FetchSymbolDayData(folder, dl, today, symbol, caching).folder == folder
    ensures FetchSymbolInfo(folder, dl, today, symbol, caching).requested == [symbol]
  {
  }

  // ---------------------------------------------------------------- fetching several symbols

  /** The cache hits among the requested symbols, and the symbols still to download, in request order. */
  datatype Partition = Partition(hits: map<string, DataFrame>, missing: seq<string>)

  function PartitionCached(folder: CacheFolder, today: int, symbols: seq<string>): (r: Result<Partition>)
    requires Valid(folder)
    ensures r.Ok? ==> |r.value.missing| <= |symbols|
  {
    if symbols == [] then Ok(Partition(map[], []))
    else
      var front, s := symbols[..|symbols| - 1], symbols[|symbols| - 1];
      match PartitionCached(folder, today, front)
      case Err(e) => Err(e)
      case Ok(p) =>
        match CachedIfFresh(folder, s, DayData, today)
        case Err(e) => Err(e)
        case Ok(None) => Ok(Partition(p.hits, p.missing + [s]))
        case Ok(Some(payload)) =>
          FreshPayloadMatchesType(folder, s, DayData, today);
          Ok(Partition(p.hits[s := payload.frame], p.missing))
  }

  /** The cache pass completes exactly when no requested symbol's freshness check raises. */
  lemma {:induction false} PartitionCachedSucceeds(folder: CacheFolder, today: int, symbols: seq<string>)
    requires Valid(folder)
    ensures PartitionCached(folder, today, symbols).Ok? <==>
      forall i :: 0 <= i < |symbols| ==> CachedIfFresh(folder, symbols[i], DayData, today).Ok?
  {
    if symbols != [] {
      var front := symbols[..|symbols| - 1];
      PartitionCachedSucceeds(folder, today, front);
      assert forall i :: 0 <= i < |front| ==> front[i] == symbols[i];
    }
  }

  /** A failed cache pass fails with the error of the first symbol whose freshness check raises. */
  lemma {:induction false} PartitionCachedFirstError(folder: CacheFolder, today: int, symbols: seq<string>) returns (k: nat)
    requires Valid(folder) && PartitionCached(folder, today, symbols).Err?
    ensures k < |symbols| && CachedIfFresh(folder, symbols[k], DayData, today) == Err(PartitionCached(folder, today, symbols).error)
    ensures forall j :: 0 <= j < k ==> CachedIfFresh(folder, symbols[j], DayData, today).Ok?
  {
    var front := symbols[..|symbols| - 1];
    if PartitionCached(folder, today, front).Err? {
      k := PartitionCachedFirstError(folder, today, front);
      assert front[k] == symbols[k];
      assert forall j :: 0 <= j < k ==> front[j] == symbols[j];
    } else {
      k := |symbols| - 1;
      PartitionCachedSucceeds(folder, today, front);
      assert forall j :: 0 <= j < k ==> front[j] == symbols[j];
    }
  }

  /** A symbol is left to download once for each time it was requested if its cache file is missing or stale, and never otherwise. */
  lemma {:induction false} PartitionCachedMissing(folder: CacheFolder, today: int, symbols: seq<string>, s: string)
    requires Valid(folder) && PartitionCached(folder, today, symbols).Ok?
    ensures multiset(PartitionCached(folder, today, symbols).value.missing)[s] ==
      if CachedIfFresh(folder, s, DayData, today) == Ok(None) then multiset(symbols)[s] else 0
  {
    if symbols != [] {
      var front, last := symbols[..|symbols| - 1], symbols[|symbols| - 1];
      assert symbols == front + [last];
      PartitionCachedMissing(folder, today, front, s);
    }
  }

  /** The requested symbols without an up-to-date cache file, in request order. */
  function Stale(folder: CacheFolder, today: int, symbols: seq<string>): seq<string>
  {
    if symbols == [] then []
    else
      var head := if CachedIfFresh(folder, symbols[0], DayData, today) == Ok(None) then [symbols[0]] else [];
      head + Stale(folder, today, symbols[1..])
  }

  lemma {:induction false} StaleAppend(folder: CacheFolder, today: int, a: seq<string>, b: seq<string>)
    ensures Stale(folder, today, a + b) == Stale(folder, today, a) + Stale(folder, today, b)
  {
    if a != [] {
      assert (a + b)[1..] == a[1..] + b;
      StaleAppend(folder, today, a[1..], b);
    } else {
      assert a + b == b;
    }
  }

  /** The symbols left to download are exactly the stale ones, in the order they were requested. */
  lemma {:induction false} PartitionCachedMissingInOrder(folder: CacheFolder, today: int, symbols: seq<string>)
    requires Valid(folder) && PartitionCached(folder, today, symbols).Ok?
    ensures PartitionCached(folder, today, symbols).value.missing == Stale(folder, today, symbols)
  {
    if symbols != [] {
      var front, last := symbols[..|symbols| - 1], symbols[|symbols| - 1];
      assert symbols == front + [last];
      PartitionCachedMissingInOrder(folder, today, front);
      StaleAppend(folder, today, front, [last]);
      assert Stale(folder, today, [last]) == if CachedIfFresh(folder, last, DayData, today) == Ok(None) then [last] else [];
    }
  }

  /** A symbol is a cache hit exactly when it was requested and has an up-to-date file, and then it maps to that file's bars. */
  lemma {:induction false} PartitionCachedHit(folder: CacheFolder, today: int, symbols: seq<string>, s: string)
    requires Valid(folder) && PartitionCached(folder, today, symbols).Ok?
    ensures var hits := PartitionCached(folder, today, symbols).value.hits;
      && (s in hits <==> s in symbols && CachedIfFresh(folder, s, DayData, today) != Ok(None))
      && (s in hits ==> CachedIfFresh(folder, s, DayData, today) == Ok(Some(Bars(hits[s]))))
  {
    if symbols != [] {
      var front, last := symbols[..|symbols| - 1], symbols[|symbols| - 1];
      assert symbols == front + [last];
      PartitionCachedHit(folder, today, front, s);
      if CachedIfFresh(folder, last, DayData, today) != Ok(None) {
        FreshPayloadMatchesType(folder, last, DayData, today);
      }
    }
  }

  /** Once a prefix of the symbols meets a failing freshness check, the whole partition fails with it. */
  lemma {:induction false} PartitionErrorPersists(folder: CacheFolder, today: int, symbols: seq<string>, k: nat)
    requires Valid(folder)
    requires k <= |symbols| && PartitionCached(folder, today, symbols[..k]).Err?
    ensures PartitionCached(folder, today, symbols) == PartitionCached(folder, today, symbols[..k])
    decreases |symbols| - k
  {
    if k < |symbols| {
      var front := symbols[..|symbols| - 1];
      assert front[..k] == symbols[..k];
      PartitionErrorPersists(folder, today, front, k);
    } else {
      assert symbols[..k] == symbols;
    }
  }

  /** Python's `list.remove(x)`: drop the first occurrence. */
  function RemoveFirst(xs: seq<string>, x: string): (r: seq<string>)
    requires x in xs
    ensures |r| == |xs| - 1
  {
    if xs[0] == x then xs[1..] else [xs[0]] + RemoveFirst(xs[1..], x)
  }

  lemma {:induction false} RemoveFirstSkipsFront(front: seq<string>, x: string, back: seq<string>)
    requires x !in front
    ensures RemoveFirst(front + [x] + back, x) == front + back
  {
    if front != [] {
      assert (front + [x] + back)[1..] == front[1..] + [x] + back;
      RemoveFirstSkipsFront(front[1..], x, back);
      assert [front[0]] + (front[1..] + back) == front + back;
    } else {
      assert front + [x] + back == [x] + back;
    }
  }

  /** The files that dumping each downloaded symbol's day bars writes. */
  function WrittenDayFiles(frames: map<string, DataFrame>): map<string, YahooData>
  {
    DayFileNamesInjective();
    map s | s in frames :: PickleFileName(s, DayData) := MakeYahooData(s, DayData, Bars(frames[s]))
  }

  /** Each downloaded symbol's bars are written under its own day-bars file name, and nothing else is written. */
  lemma WrittenDayFilesContents(frames: map<string, DataFrame>)
    ensures var written := WrittenDayFiles(frames);
      forall s :: s in frames ==> (PickleFileName(s, DayData) in written &&
        written[PickleFileName(s, DayData)] == MakeYahooData(s, DayData, Bars(frames[s])))
    ensures forall name :: name in WrittenDayFiles(frames) ==> exists s :: s in frames && name == PickleFileName(s, DayData)
  {
    DayFileNamesInjective();
  }

  lemma DayFileNamesInjective()
    ensures forall a, b :: PickleFileName(a, DayData) == PickleFileName(b, DayData) ==> a == b
  {
    forall a, b | PickleFileName(a, DayData) == PickleFileName(b, DayData) ensures a == b {
      PickleFileNameInjective(a, b, DayData);
    }
  }

  function DumpAllDayData(folder: CacheFolder, frames: map<string, DataFrame>): (r: CacheFolder)
    ensures r.enabled == folder.enabled
    ensures !folder.enabled ==> r == folder
  {
    if folder.enabled then folder.(files := folder.files + WrittenDayFiles(frames)) else folder
  }

  /** Storing downloaded day bars keeps the folder valid. */
  lemma DumpAllKeepsValid(folder: CacheFolder, frames: map<string, DataFrame>)
    requires Valid(folder)
    ensures Valid(DumpAllDayData(folder, frames))
  {
    LowerOfLowercase(DayData);
    WrittenDayFilesContents(frames);
  }

  /** fetch_symbols_day_data: cache hits, then one download of the missing symbols, which are written to the cache. */
  function FetchManySpec(folder: CacheFolder, dl: Downloader, today: int, symbols: seq<string>, caching: bool): (r: Fetched<map<string, DataFrame>>)
    requires Valid(folder)
    ensures Valid(r.folder)
  {
    var partition := if caching then PartitionCached(folder, today, symbols) else Ok(Partition(map[], symbols));
    match partition
    case Err(e) => Fetched(Err(e), folder, [])
    case Ok(p) =>
      if p.missing == [] then Fetched(Ok(p.hits), folder, [])
      else
        match DownloadSymbolsDayData(dl, p.missing)
        case Err(e) => Fetched(Err(e), folder, p.missing)
        case Ok(downloaded) =>
          DumpAllKeepsValid(folder, downloaded);
          Fetched(Ok(p.hits + downloaded), DumpAllDayData(folder, downloaded), p.missing)
  }

  /**
   * The downloader is asked for exactly the requested symbols without an up-to-date cache file,
   * each as often as it was requested, in request order.
   */
  lemma FetchManyRequestsExactlyTheStale(folder: CacheFolder, dl: Downloader, today: int, symbols: seq<string>, s: string)
    requires Valid(folder)
    requires forall i :: 0 <= i < |symbols| ==> CachedIfFresh(folder, symbols[i], DayData, today).Ok?
    ensures multiset(FetchManySpec(folder, dl, today, symbols, true).requested)[s] ==
      if CachedIfFresh(folder, s, DayData, today) == Ok(None) then multiset(symbols)[s] else 0
    ensures FetchManySpec(folder, dl, today, symbols, true).requested == Stale(folder, today, symbols)
  {
    PartitionCachedSucceeds(folder, today, symbols);
    PartitionCachedMissing(folder, today, symbols, s);
    PartitionCachedMissingInOrder(folder, today, symbols);
  }

  /** When every requested symbol has an up-to-date cache file, nothing is downloaded and the cache is left as it was. */
  lemma NothingDownloadedWhenAllFresh(folder: CacheFolder, dl: Downloader, today: int, symbols: seq<string>)
    requires Valid(folder)
    requires forall s :: s in symbols ==> CachedIfFresh(folder, s, DayData, today).Ok? && CachedIfFresh(folder, s, DayData, today) != Ok(None)
    ensures FetchManySpec(folder, dl, today, symbols, true).requested == []
    ensures FetchManySpec(folder, dl, today, symbols, true).folder == folder
    ensures FetchManySpec(folder, dl, today, symbols, true).result.Ok?
  {
    PartitionCachedSucceeds(folder, today, symbols);
    var p := PartitionCached(folder, today, symbols).value;
    if p.missing != [] {
      assert p.missing[0] in multiset(p.missing);
      PartitionCachedMissing(folder, today, symbols, p.missing[0]);
      assert false;
    }
  }

  /** The day bars a fetch of several symbols downloaded; none when it requested nothing. */
  function DownloadedBars(dl: Downloader, requested: seq<string>): map<string, DataFrame>
  {
    if requested == [] then map[]
    else
      match DownloadSymbolsDayData(dl, requested)
      case Ok(frames) => frames
      case Err(_) => map[]
  }

  /** A successful fetch of several symbols: its partition, what it requested, and its result as cache hits overlaid by the download. */
  lemma FetchManyShape(folder: CacheFolder, dl: Downloader, today: int, symbols: seq<string>, caching: bool) returns (p: Partition)
    requires Valid(folder)
    requires FetchManySpec(folder, dl, today, symbols, caching).result.Ok?
    ensures caching ==> PartitionCached(folder, today, symbols) == Ok(p)
    ensures !caching ==> p == Partition(map[], symbols)
    ensures FetchManySpec(folder, dl, today, symbols, caching).requested == p.missing
    ensures FetchManySpec(folder, dl, today, symbols, caching).result.value == p.hits + DownloadedBars(dl, p.missing)
  {
    p := if caching then PartitionCached(folder, today, symbols).value else Partition(map[], symbols);
  }

  /**
   * In the combined result every downloaded symbol maps to its download, and every up-to-date
   * symbol the download did not return maps to its cached bars.
   */
  lemma FetchManyResultSources(folder: CacheFolder, dl: Downloader, today: int, symbols: seq<string>, caching: bool, s: string)
    requires Valid(folder)
    requires FetchManySpec(folder, dl, today, symbols, caching).result.Ok?
    ensures var r := FetchManySpec(folder, dl, today, symbols, caching);
      var downloaded := DownloadedBars(dl, r.requested);
      && (s in downloaded ==> s in r.result.value && r.result.value[s] == downloaded[s])
      && (caching && s in symbols && s !in downloaded && CachedIfFresh(folder, s, DayData, today) != Ok(None) ==>
            s in r.result.value && CachedIfFresh(folder, s, DayData, today) == Ok(Some(Bars(r.result.value[s]))))
  {
    var p := FetchManyShape(folder, dl, today, symbols, caching);
    if caching {
      PartitionCachedHit(folder, today, symbols, s);
    }
  }

  /** When only one symbol had to be downloaded, it is downloaded on its own, so every requested symbol is in the result. */
  lemma SingleMissingSymbolCompletesResult(folder: CacheFolder, dl: Downloader, today: int, symbols: seq<string>, caching: bool, s: string)
    requires Valid(folder)
    requires FetchManySpec(folder, dl, today, symbols, caching).result.Ok?
    requires |FetchManySpec(folder, dl, today, symbols, caching).requested| == 1 && s in symbols
    ensures s in FetchManySpec(folder, dl, today, symbols, caching).result.value
  {
    var p := FetchManyShape(folder, dl, today, symbols, caching);
    assert p.missing[0] in DownloadedBars(dl, p.missing);
    if s !in p.hits {
      if caching {
        PartitionCachedHit(folder, today, symbols, s);
        PartitionCachedMissing(folder, today, symbols, s);
        assert s in multiset(p.missing);
      }
      assert s in p.missing && p.missing == [p.missing[0]];
    }
  }

  /** fetch_symbols_day_data: the cache pass, then one download of the missing symbols, which are stored. */
  method FetchSymbolsDayData(folder: CacheFolder, dl: Downloader, today: int, symbols: seq<string>, caching: bool)
    returns (r: Fetched<map<string, DataFrame>>)
    requires Valid(folder)
    ensures r == FetchManySpec(folder, dl, today, symbols, caching)
  {
    var result: map<string, DataFrame> := map[];
    var missingSymbols := symbols;
    if caching {
      var partition := CollectCached(folder, today, symbols);
      if partition.Err? {
        return Fetched(Err(partition.error), folder, []);
      }
      result, missingSymbols := partition.value.hits, partition.value.missing;
    }
    if missingSymbols == [] {
      return Fetched(Ok(result), folder, []);
    }
    var missingData := DownloadSymbolsDayData(dl, missingSymbols);
    if missingData.Err? {
      return Fetched(Err(missingData.error), folder, missingSymbols);
    }
    var written;
    result, written := StoreDownloaded(folder, result, missingData.value);
    r := Fetched(Ok(result), written, missingSymbols);
  }

  /** The cache pass: each requested symbol with an up-to-date file is a hit and leaves the list of missing symbols. */
  method CollectCached(folder: CacheFolder, today: int, symbols: seq<string>) returns (r: Result<Partition>)
    requires Valid(folder)
    ensures r == PartitionCached(folder, today, symbols)
  {
    var result: map<string, DataFrame> := map[];
    var missingSymbols := symbols;
    for i := 0 to |symbols|
      invariant PartitionCached(folder, today, symbols[..i]).Ok?
      invariant result == PartitionCached(folder, today, symbols[..i]).value.hits
      invariant missingSymbols == PartitionCached(folder, today, symbols[..i]).value.missing + symbols[i..]
    {
      PartitionCachedStep(folder, today, symbols, i);
      var symbol := symbols[i];
      var cachedData := CheckPickleFile(folder, symbol, DayData);
      if cachedData.Some? {
        var upToDate := IsUpToDate(cachedData.value, today);
        if upToDate.Err? {
          assert CachedIfFresh(folder, symbol, DayData, today) == Err(upToDate.error);
          PartitionErrorPersists(folder, today, symbols, i + 1);
          return Err(upToDate.error);
        }
        if upToDate.value {
          FreshPayloadMatchesType(folder, symbol, DayData, today);
          result := result[symbol := cachedData.value.data.frame];
          missingSymbols := RemoveFirst(missingSymbols, symbol);
        }
      }
    }
    assert symbols[..|symbols|] == symbols && symbols[|symbols|..] == [];
    assert PartitionCached(folder, today, symbols).Ok?;
    assert result == PartitionCached(folder, today, symbols).value.hits;
    assert missingSymbols == PartitionCached(folder, today, symbols).value.missing;
    assert PartitionCached(folder, today, symbols) == Ok(Partition(result, missingSymbols));
    r := Ok(Partition(result, missingSymbols));
  }

  /** How the partition of a prefix grows by the next symbol, and how the not-yet-scanned symbols shift. */
  lemma PartitionCachedStep(folder: CacheFolder, today: int, symbols: seq<string>, i: nat)
    requires Valid(folder) && i < |symbols| && PartitionCached(folder, today, symbols[..i]).Ok?
    ensures var p := PartitionCached(folder, today, symbols[..i]).value;
      var next := PartitionCached(folder, today, symbols[..i + 1]);
      var cached := CachedIfFresh(folder, symbols[i], DayData, today);
      && (cached.Err? ==> next == Err(cached.error))
      && (cached == Ok(None) ==> next == Ok(Partition(p.hits, p.missing + [symbols[i]])))
      && (cached.Ok? && cached.value.Some? && cached.value.value.Bars? ==>
            next == Ok(Partition(p.hits[symbols[i] := cached.value.value.frame], p.missing)) &&
            RemoveFirst(p.missing + symbols[i..], symbols[i]) == p.missing + symbols[i + 1..])
      && p.missing + symbols[i..] == (p.missing + [symbols[i]]) + symbols[i + 1..]
  {
    var p := PartitionCached(folder, today, symbols[..i]).value;
    var symbol := symbols[i];
    assert symbols[..i + 1][..i] == symbols[..i] && symbols[..i + 1][i] == symbol;
    assert symbols[i..] == [symbol] + symbols[i + 1..];
    if CachedIfFresh(folder, symbol, DayData, today) != Ok(None) {
      PartitionCachedMissing(folder, today, symbols[..i], symbol);
      assert symbol !in p.missing;
      RemoveFirstSkipsFront(p.missing, symbol, symbols[i + 1..]);
      assert p.missing + symbols[i..] == p.missing + [symbol] + symbols[i + 1..];
    }
  }

  /**
   * Each downloaded symbol's bars are dumped to the cache and put into the result; the result
   * entries do not depend on the dumps, so they are added as one union.
   */
  method StoreDownloaded(folder: CacheFolder, hits: map<string, DataFrame>, downloaded: map<string, DataFrame>)
    returns (result: map<string, DataFrame>, written: CacheFolder)
    ensures result == hits + downloaded
    ensures written == DumpAllDayData(folder, downloaded)
  {
    written := folder;
    var pending := downloaded.Keys;
    StoreNothingYet(folder, downloaded);
    while pending != {}
      invariant pending <= downloaded.Keys
      invariant written == DumpAllDayData(folder, downloaded - pending)
      decreases |pending|
    {
      var symbol :| symbol in pending;
      StoreOneMore(folder, downloaded, pending, symbol);
      written := DumpPickleFile(written, symbol, DayData, Bars(downloaded[symbol]));
      pending := pending - {symbol};
    }
    assert downloaded - pending == downloaded;
    result := hits + downloaded;
  }

  lemma StoreNothingYet(folder: CacheFolder, downloaded: map<string, DataFrame>)
    ensures DumpAllDayData(folder, downloaded - downloaded.Keys) == folder
  {
    assert downloaded - downloaded.Keys == map[];
    DumpNothing(folder);
  }

  lemma DumpNothing(folder: CacheFolder)
    ensures DumpAllDayData(folder, map[]) == folder
  {
    assert WrittenDayFiles(map[]) == map[];
  }

  lemma StoreOneMore(folder: CacheFolder, downloaded: map<string, DataFrame>, pending: set<string>, symbol: string)
    requires symbol in pending && pending <= downloaded.Keys
    ensures var stored := downloaded - pending;
      DumpAllDayData(folder, downloaded - (pending - {symbol})) ==
         DumpPickleFile(DumpAllDayData(folder, stored), symbol, DayData, Bars(downloaded[symbol]))
  {
    var stored := downloaded - pending;
    assert downloaded - (pending - {symbol}) == stored[symbol := downloaded[symbol]];
    DumpAllStep(folder, stored, symbol, downloaded[symbol]);
  }

  lemma WrittenDayFilesStep(frames: map<string, DataFrame>, symbol: string, frame: DataFrame)
    requires symbol !in frames
    ensures WrittenDayFiles(frames[symbol := frame]) ==
      WrittenDayFiles(frames)[PickleFileName(symbol, DayData) := MakeYahooData(symbol, DayData, Bars(frame))]
  {
    var lhs := WrittenDayFiles(frames[symbol := frame]);
    var rhs := WrittenDayFiles(frames)[PickleFileName(symbol, DayData) := MakeYahooData(symbol, DayData, Bars(frame))];
    forall name | name in lhs ensures name in rhs && lhs[name] == rhs[name] {
      WrittenAfterStep(frames, symbol, frame, name);
    }
    forall name | name in rhs ensures name in lhs {
      WrittenBeforeStep(frames, symbol, frame, name);
    }
  }

  lemma WrittenAfterStep(frames: map<string, DataFrame>, symbol: string, frame: DataFrame, name: string)
    requires symbol !in frames && name in WrittenDayFiles(frames[symbol := frame])
    ensures var rhs := WrittenDayFiles(frames)[PickleFileName(symbol, DayData) := MakeYahooData(symbol, DayData, Bars(frame))];
      name in rhs && WrittenDayFiles(frames[symbol := frame])[name] == rhs[name]
  {
    WrittenDayFilesContents(frames);
    WrittenDayFilesContents(frames[symbol := frame]);
    var t :| t in frames[symbol := frame] && name == PickleFileName(t, DayData);
    if t != symbol && name == PickleFileName(symbol, DayData) {
      PickleFileNameInjective(t, symbol, DayData);
    }
  }

  lemma WrittenBeforeStep(frames: map<string, DataFrame>, symbol: string, frame: DataFrame, name: string)
    requires symbol !in frames
    requires name in WrittenDayFiles(frames)[PickleFileName(symbol, DayData) := MakeYahooData(symbol, DayData, Bars(frame))]
    ensures name in WrittenDayFiles(frames[symbol := frame])
  {
    WrittenDayFilesContents(frames);
    WrittenDayFilesContents(frames[symbol := frame]);
    if name != PickleFileName(symbol, DayData) {
      var t :| t in frames && name == PickleFileName(t, DayData);
      assert t in frames[symbol := frame];
    }
  }

  lemma DumpAllStep(folder: CacheFolder, frames: map<string, DataFrame>, symbol: string, frame: DataFrame)
    requires symbol !in frames
    ensures DumpAllDayData(folder, frames[symbol := frame]) ==
      DumpPickleFile(DumpAllDayData(folder, frames), symbol, DayData, Bars(frame))
  {
    WrittenDayFilesStep(frames, symbol, frame);
    UnionThenUpdate(folder.files, WrittenDayFiles(frames), PickleFileName(symbol, DayData), MakeYahooData(symbol, DayData, Bars(frame)));
  }

  lemma UnionThenUpdate<K, V>(base: map<K, V>, added: map<K, V>, key: K, value: V)
    ensures base + added[key := value] == (base + added)[key := value]
  {
  }

  // ---------------------------------------------------------------- formatting

  predicate HasColumn(columns: seq<Column>, name: string)
  {
    exists c :: c in columns && c.name == name
  }

  /** The columns whose names are not dropped, in order. */
  function Without(columns: seq<Column>, dropped: set<string>): (r: seq<Column>)
    ensures forall c :: c in r <==> c in columns && c.name !in dropped
  {
    if columns == [] then []
    else (if columns[0].name in dropped then [] else [columns[0]]) + Without(columns[1..], dropped)
  }

  lemma {:induction false} WithoutTwice(columns: seq<Column>, a: set<string>, b: set<string>)
    ensures Without(Without(columns, a), b) == Without(columns, a + b)
  {
    if columns != [] {
      WithoutTwice(columns[1..], a, b);
      var head := if columns[0].name in a then [] else [columns[0]];
      assert Without(columns, a) == head + Without(columns[1..], a);
      WithoutAppend(head, Without(columns[1..], a), b);
    }
  }

  lemma {:induction false} WithoutNothing(columns: seq<Column>)
    ensures Without(columns, {}) == columns
  {
    if columns != [] {
      WithoutNothing(columns[1..]);
      assert [columns[0]] + columns[1..] == columns;
    }
  }

  lemma {:induction false} WithoutAppend(x: seq<Column>, y: seq<Column>, dropped: set<string>)
    ensures Without(x + y, dropped) == Without(x, dropped) + Without(y, dropped)
  {
    if x == [] {
      assert x + y == y;
    } else {
      assert (x + y)[0] == x[0] && (x + y)[1..] == x[1..] + y;
      WithoutAppend(x[1..], y, dropped);
    }
  }

  /** `del df[name]`: every column of that name goes; a missing column raises KeyError. */
  function DeleteColumn(df: DataFrame, name: string): (r: Result<DataFrame>)
    ensures r.Err? <==> !HasColumn(df.columns, name)
    ensures r.Err? ==> r.error == KeyError(name)
    ensures r.Ok? ==> r.value == df.(columns := Without(df.columns, {name}))
  {
    if HasColumn(df.columns, name) then Ok(df.(columns := Without(df.columns, {name}))) else Err(KeyError(name))
  }

  /** `del df[n]` for each name in turn; the first deletion that raises ends the sequence. */
  function DeleteColumns(df: DataFrame, names: seq<string>): (r: Result<DataFrame>)
    ensures r.Ok? ==> r.value.index == df.index
    ensures r.Err? ==> exists n :: n in names && r.error == KeyError(n)
    decreases |names|
  {
    if names == [] then Ok(df)
    else
      var d :- DeleteColumn(df, names[0]);
      DeleteColumns(d, names[1..])
  }

  /**
   * Deleting distinct names one after the other succeeds exactly when every one of them is a
   * column, and then drops just those columns.
   */
  lemma {:induction false} DeleteColumnsDropsAll(df: DataFrame, names: seq<string>)
    requires forall i, j :: 0 <= i < j < |names| ==> names[i] != names[j]
    ensures DeleteColumns(df, names).Ok? <==> forall i :: 0 <= i < |names| ==> HasColumn(df.columns, names[i])
    ensures DeleteColumns(df, names).Ok? ==>
      DeleteColumns(df, names).value == df.(columns := Without(df.columns, set n | n in names))
    decreases |names|
  {
    if names == [] {
      WithoutNothing(df.columns);
      assert (set n | n in names) == {};
    } else if HasColumn(df.columns, names[0]) {
      var n, rest := names[0], names[1..];
      var d := df.(columns := Without(df.columns, {n}));
      assert DeleteColumns(df, names) == DeleteColumns(d, rest);
      DeleteColumnsDropsAll(d, rest);
      HasColumnsWithout(df.columns, n, rest);
      DropOneThenRest(df.columns, names);
    }
  }

  lemma DropOneThenRest(columns: seq<Column>, names: seq<string>)
    requires names != []
    ensures Without(Without(columns, {names[0]}), set m | m in names[1..]) == Without(columns, set m | m in names)
  {
    WithoutTwice(columns, {names[0]}, set m | m in names[1..]);
    assert {names[0]} + (set m | m in names[1..]) == set m | m in names;
  }

  /** Removing one name leaves every other name's columns in place. */
  lemma HasColumnsWithout(columns: seq<Column>, n: string, rest: seq<string>)
    requires n !in rest
    ensures (forall i :: 0 <= i < |rest| ==> HasColumn(Without(columns, {n}), rest[i])) <==>
      (forall i :: 0 <= i < |rest| ==> HasColumn(columns, rest[i]))
  {
    forall i | 0 <= i < |rest| ensures HasColumn(Without(columns, {n}), rest[i]) <==> HasColumn(columns, rest[i]) {
      HasColumnWithout(columns, {n}, rest[i]);
    }
  }

  /** A failing sequence of deletions fails with KeyError for the first name that is not a column. */
  lemma {:induction false} DeleteColumnsFailsOnFirstMissing(df: DataFrame, names: seq<string>, k: nat)
    requires forall i, j :: 0 <= i < j < |names| ==> names[i] != names[j]
    requires k < |names| && !HasColumn(df.columns, names[k])
    requires forall i :: 0 <= i < k ==> HasColumn(df.columns, names[i])
    ensures DeleteColumns(df, names) == Err(KeyError(names[k]))
    decreases k
  {
    if k > 0 {
      var n, rest := names[0], names[1..];
      var d := df.(columns := Without(df.columns, {n}));
      HasColumnWithout(df.columns, {n}, rest[k - 1]);
      forall i | 0 <= i < k - 1 ensures HasColumn(d.columns, rest[i]) {
        HasColumnWithout(df.columns, {n}, rest[i]);
      }
      DeleteColumnsFailsOnFirstMissing(d, rest, k - 1);
    }
  }

  const AdjustedNames: map<string, string> :=
    map["Adj Close" := "Close", "Adj Open" := "Open", "Adj High" := "High", "Adj Low" := "Low"]

  function RenameColumn(c: Column, names: map<string, string>): Column
  {
    if c.name in names then c.(name := names[c.name]) else c
  }

  /** `df.rename(columns=names)`: renames the columns named by a key; the others stay. */
  function Renamed(columns: seq<Column>, names: map<string, string>): (r: seq<Column>)
    ensures |r| == |columns|
    ensures forall i :: 0 <= i < |columns| ==> r[i] == RenameColumn(columns[i], names)
  {
    seq(|columns|, i requires 0 <= i < |columns| => RenameColumn(columns[i], names))
  }

  const AdjustedDrops: seq<string> := ["Adj Ratio", "Close", "Open", "High", "Low"]
  const UnadjustedDrops: seq<string> := ["Adj Ratio", "Adj Open", "Adj High", "Adj Low"]

  /** format_df: the index is kept; a failure is KeyError for one of the columns the mode drops. */
  function FormatDf(df: DataFrame, autoAdjust: bool): (r: Result<DataFrame>)
    ensures r.Ok? ==> r.value.index == df.index
    ensures r.Err? ==> exists n :: n in (if autoAdjust then AdjustedDrops else UnadjustedDrops) && r.error == KeyError(n)
  {
    if autoAdjust then
      var d :- DeleteColumns(df, AdjustedDrops);
      Ok(d.(columns := Renamed(d.columns, AdjustedNames)))
    else
      DeleteColumns(df, UnadjustedDrops)
  }

  lemma HasColumnWithout(columns: seq<Column>, dropped: set<string>, name: string)
    ensures HasColumn(Without(columns, dropped), name) <==> HasColumn(columns, name) && name !in dropped
  {
    if HasColumn(columns, name) && name !in dropped {
      var c :| c in columns && c.name == name;
      assert c in Without(columns, dropped);
    }
  }

  /**
   * With adjustment, formatting succeeds exactly when "Adj Ratio" and the raw Close, Open, High
   * and Low columns are all there; it drops them and renames each "Adj X" column to "X".
   */
  lemma FormatDfAdjusted(df: DataFrame)
    ensures FormatDf(df, true).Ok? <==> forall n :: n in AdjustedDrops ==> HasColumn(df.columns, n)
    ensures FormatDf(df, true).Ok? ==>
      FormatDf(df, true).value == DataFrame(df.index, Renamed(Without(df.columns, set n | n in AdjustedDrops), AdjustedNames))
  {
    DeleteColumnsDropsAll(df, AdjustedDrops);
  }

  /**
   * Without adjustment, formatting succeeds exactly when "Adj Ratio" and the adjusted Open, High
   * and Low columns are there; it drops just those, so "Adj Close" and the raw prices stay.
   */
  lemma FormatDfUnadjusted(df: DataFrame)
    ensures FormatDf(df, false).Ok? <==> forall n :: n in UnadjustedDrops ==> HasColumn(df.columns, n)
    ensures FormatDf(df, false).Ok? ==>
      FormatDf(df, false).value == DataFrame(df.index, Without(df.columns, set n | n in UnadjustedDrops))
  {
    DeleteColumnsDropsAll(df, UnadjustedDrops);
  }

  /** Either way a frame without "Adj Ratio" is refused with KeyError, before any other column is looked at. */
  lemma FormatDfNeedsAdjRatio(df: DataFrame, autoAdjust: bool)
    requires !HasColumn(df.columns, "Adj Ratio")
    ensures FormatDf(df, autoAdjust) == Err(KeyError("Adj Ratio"))
  {
  }

  /**
   * After adjusted formatting no "Adj" price column and no "Adj Ratio" is left, and each "Close"
   * column is an input "Adj Close" column renamed.
   */
  lemma FormatDfAdjustedPrices(df: DataFrame)
    requires FormatDf(df, true).Ok?
    ensures var cols := FormatDf(df, true).value.columns;
      forall c :: c in cols ==> c.name !in AdjustedNames && c.name != "Adj Ratio"
    ensures var cols := FormatDf(df, true).value.columns;
      forall c :: c in cols && c.name == "Close" ==> Column("Adj Close", c.values) in df.columns
  {
    FormatDfAdjusted(df);
    var kept := Without(df.columns, set n | n in AdjustedDrops);
    var cols := FormatDf(df, true).value.columns;
    forall c | c in cols
      ensures c.name !in AdjustedNames && c.name != "Adj Ratio"
      ensures c.name == "Close" ==> Column("Adj Close", c.values) in df.columns
    {
      var i :| 0 <= i < |cols| && cols[i] == c;
      assert kept[i] in kept;
      RenameKeptColumn(kept[i]);
    }
  }

  /** A column that survived the adjusted drops is renamed to a plain price name or keeps a name that is no "Adj" key. */
  lemma RenameKeptColumn(c: Column)
    requires c.name !in AdjustedDrops
    ensures var renamed := RenameColumn(c, AdjustedNames);
      && renamed.name !in AdjustedNames && renamed.name != "Adj Ratio" && renamed.values == c.values
      && (renamed.name == "Close" ==> c.name == "Adj Close")
  {
  }

  /** After unadjusted formatting "Adj Ratio" and the adjusted Open, High and Low are gone, and every other column stays. */
  lemma FormatDfUnadjustedKeeps(df: DataFrame)
    requires FormatDf(df, false).Ok?
    ensures forall c :: c in FormatDf(df, false).value.columns <==> c in df.columns && c.name !in UnadjustedDrops
  {
    FormatDfUnadjusted(df);
  }

  // ---------------------------------------------------------------- dividends and splits

  datatype Entry = Entry(stamp: Timestamp, value: real)

  /** The first column of that name, if any. */
  function FirstColumn(columns: seq<Column>, name: string): (r: Option<Column>)
    ensures r.None? <==> !HasColumn(columns, name)
    ensures r.Some? ==> r.value in columns && r.value.name == name
  {
    if columns == [] then None
    else if columns[0].name == name then Some(columns[0])
    else
      var r := FirstColumn(columns[1..], name);
      assert HasColumn(columns, name) ==> columns[0].name == name || HasColumn(columns[1..], name);
      r
  }

  /** The column found is the first of that name: it sits at a position no earlier column of that name precedes. */
  lemma {:induction false} FirstColumnIsFirst(columns: seq<Column>, name: string) returns (k: nat)
    requires HasColumn(columns, name)
    ensures k < |columns| && columns[k] == FirstColumn(columns, name).value
    ensures forall j :: 0 <= j < k ==> columns[j].name != name
  {
    if columns[0].name == name {
      k := 0;
    } else {
      var c :| c in columns && c.name == name;
      assert c in columns[1..];
      var k' := FirstColumnIsFirst(columns[1..], name);
      k := k' + 1;
    }
  }

  /** `df[name]`: the column's values paired with the index (the two have the same length in a dataframe). */
  function ColumnSeries(df: DataFrame, name: string): (r: Result<seq<Entry>>)
    ensures r.Err? <==> !HasColumn(df.columns, name)
    ensures r.Err? ==> r.error == KeyError(name)
  {
    match FirstColumn(df.columns, name)
    case None => Err(KeyError(name))
    case Some(c) =>
      var n := if |df.index| <= |c.values| then |df.index| else |c.values|;
      Ok(seq(n, i requires 0 <= i < n => Entry(df.index[i], c.values[i])))
  }

  /** The series pairs each index entry with the first such column's value at the same position. */
  lemma ColumnSeriesEntries(df: DataFrame, name: string)
    requires HasColumn(df.columns, name)
    ensures var c, r := FirstColumn(df.columns, name).value, ColumnSeries(df, name).value;
      && |r| == (if |df.index| <= |c.values| then |df.index| else |c.values|)
      && forall i :: 0 <= i < |r| ==> r[i] == Entry(df.index[i], c.values[i])
  {
  }

  /** `series[series != 0]`: the non-zero entries, in order. */
  function NonZero(series: seq<Entry>): (r: seq<Entry>)
    ensures forall e :: e in r <==> e in series && e.value != 0.0
    ensures |r| <= |series|
  {
    if series == [] then []
    else (if series[0].value != 0.0 then [series[0]] else []) + NonZero(series[1..])
  }

  /** Filtering keeps the order of the series: filtering two pieces is filtering each in turn. */
  lemma {:induction false} NonZeroAppend(a: seq<Entry>, b: seq<Entry>)
    ensures NonZero(a + b) == NonZero(a) + NonZero(b)
  {
    if a == [] {
      assert a + b == b;
    } else {
      assert (a + b)[0] == a[0] && (a + b)[1..] == a[1..] + b;
      NonZeroAppend(a[1..], b);
    }
  }

  /** The column's non-zero entries are the filter of its series, so they keep the series order. */
  lemma NonZeroColumnInOrder(df: DataFrame, name: string)
    requires HasColumn(df.columns, name)
    ensures NonZeroColumn(df, name) == Ok(NonZero(ColumnSeries(df, name).value))
  {
  }

  /** A series with no zero entry passes the filter unchanged. */
  lemma {:induction false} NonZeroKeepsNonZeroSeries(series: seq<Entry>)
    requires forall i :: 0 <= i < |series| ==> series[i].value != 0.0
    ensures NonZero(series) == series
  {
    if series != [] {
      NonZeroKeepsNonZeroSeries(series[1..]);
      assert [series[0]] + series[1..] == series;
    }
  }

  /** The non-zero entries of a column; KeyError when the frame has no such column. */
  function NonZeroColumn(df: DataFrame, name: string): (r: Result<seq<Entry>>)
    ensures r.Err? <==> !HasColumn(df.columns, name)
    ensures r.Err? ==> r.error == KeyError(name)
    ensures r.Ok? ==> forall e :: e in r.value <==> e in ColumnSeries(df, name).value && e.value != 0.0
  {
    match ColumnSeries(df, name)
    case Err(e) => Err(e)
    case Ok(series) => Ok(NonZero(series))
  }

  // ---------------------------------------------------------------- the shortcut entry points

  function GetSymbolDayData(folder: CacheFolder, dl: Downloader, today: int, symbol: string, autoAdjust: bool, caching: bool)
    : (r: Fetched<DataFrame>)
    requires Valid(folder)
    ensures Valid(r.folder)
    ensures var f := FetchSymbolDayData(folder, dl, today, symbol, caching);
      && r.folder == f.folder && r.requested == f.requested
      && (f.result.Err? ==> r.result == Err(f.result.error))
      && (f.result.Ok? ==> r.result == FormatDf(f.result.value, autoAdjust))
  {
    var fetched := FetchSymbolDayData(folder, dl, today, symbol, caching);
    match fetched.result
    case Err(e) => Fetched(Err(e), fetched.folder, fetched.requested)
    case Ok(df) => Fetched(FormatDf(df, autoAdjust), fetched.folder, fetched.requested)
  }

  /** Only the "day" timestep exists; any other is refused before anything is fetched. */
  function GetSymbolData(folder: CacheFolder, dl: Downloader, today: int, symbol: string, timestep: string,
                         autoAdjust: bool, caching: bool): (r: Fetched<DataFrame>)
    requires Valid(folder)
    ensures timestep != "day" ==> r == Fetched(Err(ValueError("Unknown timestep " + timestep)), folder, [])
    ensures timestep == "day" ==> r == GetSymbolDayData(folder, dl, today, symbol, autoAdjust, caching)
  {
    if timestep == "day" then GetSymbolDayData(folder, dl, today, symbol, autoAdjust, caching)
    else Fetched(Err(ValueError("Unknown timestep " + timestep)), folder, [])
  }

  function GetSymbolDividends(folder: CacheFolder, dl: Downloader, today: int, symbol: string, caching: bool)
    : (r: Fetched<seq<Entry>>)
    requires Valid(folder)
    ensures var h := GetSymbolDayData(folder, dl, today, symbol, true, caching);
      && r.folder == h.folder && r.requested == h.requested
      && (h.result.Err? ==> r.result == Err(h.result.error))
      && (h.result.Ok? ==> r.result == NonZeroColumn(h.result.value, "Dividends"))
    ensures r.result.Ok? ==> forall e :: e in r.result.value ==> e.value != 0.0
  {
    var history := GetSymbolDayData(folder, dl, today, symbol, true, caching);
    match history.result
    case Err(e) => Fetched(Err(e), history.folder, history.requested)
    case Ok(df) => Fetched(NonZeroColumn(df, "Dividends"), history.folder, history.requested)
  }

  function GetSymbolSplits(folder: CacheFolder, dl: Downloader, today: int, symbol: string, caching: bool)
    : (r: Fetched<seq<Entry>>)
    requires Valid(folder)
    ensures var h := GetSymbolDayData(folder, dl, today, symbol, true, caching);
      && r.folder == h.folder && r.requested == h.requested
      && (h.result.Err? ==> r.result == Err(h.result.error))
      && (h.result.Ok? ==> r.result == NonZeroColumn(h.result.value, "Stock Splits"))
    ensures r.result.Ok? ==> forall e :: e in r.result.value ==> e.value != 0.0
  {
    var history := GetSymbolDayData(folder, dl, today, symbol, true, caching);
    match history.result
    case Err(e) => Fetched(Err(e), history.folder, history.requested)
    case Ok(df) => Fetched(NonZeroColumn(df, "Stock Splits"), history.folder, history.requested)
  }

  /** Each frame formatted in turn; the first frame that fails to format ends the call with its error. */
  ghost predicate FormattedAll(frames: map<string, DataFrame>, autoAdjust: bool, r: Result<map<string, DataFrame>>)
  {
    && (r.Ok? <==> forall s :: s in frames ==> FormatDf(frames[s], autoAdjust).Ok?)
    && (r.Ok? ==> (r.value.Keys == frames.Keys &&
          forall s :: s in frames ==> Ok(r.value[s]) == FormatDf(frames[s], autoAdjust)))
    && (r.Err? ==> exists s :: s in frames && FormatDf(frames[s], autoAdjust) == Err(r.error))
  }

  method GetSymbolsDayData(folder: CacheFolder, dl: Downloader, today: int, symbols: seq<string>, autoAdjust: bool, caching: bool)
    returns (r: Fetched<map<string, DataFrame>>)
    requires Valid(folder)
    ensures Valid(r.folder)
    ensures var f := FetchManySpec(folder, dl, today, symbols, caching);
      && r.folder == f.folder && r.requested == f.requested
      && (f.result.Err? ==> r.result == f.result)
      && (f.result.Ok? ==> FormattedAll(f.result.value, autoAdjust, r.result))
  {
    var fetched := FetchSymbolsDayData(folder, dl, today, symbols, caching);
    if fetched.result.Err? {
      return fetched;
    }
    var formatted := FormatEach(fetched.result.value, autoAdjust);
    r := Fetched(formatted, fetched.folder, fetched.requested);
  }

  /** Formats every frame in turn; the first that fails to format ends the loop with its error. */
  method FormatEach(frames: map<string, DataFrame>, autoAdjust: bool) returns (r: Result<map<string, DataFrame>>)
    ensures FormattedAll(frames, autoAdjust, r)
  {
    var result: map<string, DataFrame> := map[];
    var pending := frames.Keys;
    while pending != {}
      invariant pending <= frames.Keys
      invariant result.Keys == frames.Keys - pending
      invariant forall s :: s in result ==> Ok(result[s]) == FormatDf(frames[s], autoAdjust)
      decreases |pending|
    {
      var key :| key in pending;
      var formatted := FormatDf(frames[key], autoAdjust);
      if formatted.Err? {
        return Err(formatted.error);
      }
      result := result[key := formatted.value];
      pending := pending - {key};
    }
    r := Ok(result);
  }

  method GetSymbolsData(folder: CacheFolder, dl: Downloader, today: int, symbols: seq<string>, timestep: string,
                        autoAdjust: bool, caching: bool) returns (r: Fetched<map<string, DataFrame>>)
    requires Valid(folder)
    ensures Valid(r.folder)
    ensures timestep != "day" ==> r == Fetched(Err(ValueError("Unknown timestep " + timestep)), folder, [])
    ensures timestep == "day" ==>
      var f := FetchManySpec(folder, dl, today, symbols, caching);
      && r.folder == f.folder && r.requested == f.requested
      && (f.result.Err? ==> r.result == f.result)
      && (f.result.Ok? ==> FormattedAll(f.result.value, autoAdjust, r.result))
  {
    if timestep == "day" {
      r := GetSymbolsDayData(folder, dl, today, symbols, autoAdjust, caching);
    } else {
      r := Fetched(Err(ValueError("Unknown timestep " + timestep)), folder, []);
    }
  }

  /** The non-zero entries of one column of every frame; KeyError when some frame lacks the column. */
  method SelectNonZero(frames: map<string, DataFrame>, column: string) returns (r: Result<map<string, seq<Entry>>>)
    ensures r.Err? <==> exists s :: s in frames && !HasColumn(frames[s].columns, column)
    ensures r.Err? ==> r.error == KeyError(column)
    ensures r.Ok? ==> (r.value.Keys == frames.Keys &&
      forall s :: s in frames ==> Ok(r.value[s]) == NonZeroColumn(frames[s], column))
  {
    var result: map<string, seq<Entry>> := map[];
    var pending := frames.Keys;
    while pending != {}
      invariant pending <= frames.Keys
      invariant result.Keys == frames.Keys - pending
      invariant forall s :: s in result ==> Ok(result[s]) == NonZeroColumn(frames[s], column)
      decreases |pending|
    {
      var symbol :| symbol in pending;
      var series := NonZeroColumn(frames[symbol], column);
      if series.Err? {
        return Err(series.error);
      }
      result := result[symbol := series.value];
      pending := pending - {symbol};
    }
    r := Ok(result);
  }

  /**
   * One column's non-zero entries of every adjusted-formatted frame. Formatting must succeed and
   * the column must exist for every frame; otherwise the error is that of a frame that fails,
   * and a formatting error when some frame fails to format, since every frame is formatted first.
   */
  ghost predicate NonZeroOfFormatted(frames: map<string, DataFrame>, column: string, r: Result<map<string, seq<Entry>>>)
  {
    && (r.Ok? <==> forall s :: s in frames ==>
          FormatDf(frames[s], true).Ok? && HasColumn(FormatDf(frames[s], true).value.columns, column))
    && (r.Ok? ==> (r.value.Keys == frames.Keys &&
          forall s :: s in frames ==> Ok(r.value[s]) == NonZeroColumn(FormatDf(frames[s], true).value, column)))
    && (r.Err? ==> exists s :: (s in frames && (FormatDf(frames[s], true) == Err(r.error) ||
          (FormatDf(frames[s], true).Ok? && !HasColumn(FormatDf(frames[s], true).value.columns, column) &&
           r.error == KeyError(column)))))
    && ((exists s :: s in frames && FormatDf(frames[s], true).Err?) ==>
          r.Err? && exists s :: s in frames && FormatDf(frames[s], true) == Err(r.error))
  }

  method GetSymbolsDividends(folder: CacheFolder, dl: Downloader, today: int, symbols: seq<string>, caching: bool)
    returns (r: Fetched<map<string, seq<Entry>>>)
    requires Valid(folder)
    ensures Valid(r.folder)
    ensures var f := FetchManySpec(folder, dl, today, symbols, caching);
      && r.folder == f.folder && r.requested == f.requested
      && (f.result.Err? ==> r.result == Err(f.result.error))
      && (r.result.Ok? ==> f.result.Ok? && r.result.value.Keys == f.result.value.Keys)
      && (f.result.Ok? ==> NonZeroOfFormatted(f.result.value, "Dividends", r.result))
    ensures r.result.Ok? ==> forall s, e :: s in r.result.value && e in r.result.value[s] ==> e.value != 0.0
  {
    var data := GetSymbolsDayData(folder, dl, today, symbols, true, caching);
    if data.result.Err? {
      return Fetched(Err(data.result.error), data.folder, data.requested);
    }
    var result := SelectNonZero(data.result.value, "Dividends");
    r := Fetched(result, data.folder, data.requested);
  }

  method GetSymbolsSplits(folder: CacheFolder, dl: Downloader, today: int, symbols: seq<string>, caching: bool)
    returns (r: Fetched<map<string, seq<Entry>>>)
    requires Valid(folder)
    ensures Valid(r.folder)
    ensures var f := FetchManySpec(folder, dl, today, symbols, caching);
      && r.folder == f.folder && r.requested == f.requested
      && (f.result.Err? ==> r.result == Err(f.result.error))
      && (r.result.Ok? ==> f.result.Ok? && r.result.value.Keys == f.result.value.Keys)
      && (f.result.Ok? ==> NonZeroOfFormatted(f.result.value, "Stock Splits", r.result))
    ensures r.result.Ok? ==> forall s, e :: s in r.result.value && e in r.result.value[s] ==> e.value != 0.0
  {
    var data := GetSymbolsDayData(folder, dl, today, symbols, true, caching);
    if data.result.Err? {
      return Fetched(Err(data.result.error), data.folder, data.requested);
    }
    var result := SelectNonZero(data.result.value, "Stock Splits");
    r := Fetched(result, data.folder, data.requested);
  }
}
