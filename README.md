# Meadows demo workflow: order processing, ordering and roll-up, in Dafny

This project models the three data-shaping tasks of the Meadows demo workflow:

- **search_and_order** (`SearchOrder`, pure). It builds the imagery search for one site: a
  geometry filter, a half-open acquisition window and an empty cloud-cover range. It then
  projects the matched item ids and builds the clip-and-harmonize order. Finally it reports
  the order's URL, which is set only when the order POST is accepted.
- **download_and_process** (`DownloadProcess`, plus `Fetch`, `Raster`, `NanStats`, `Csv`
  and `Storage`). It reads the order's status once and proceeds only on `success` or `partial`.
  Then it:
  - downloads every result;
  - keeps the clipped analytic scenes;
  - computes NDVI cell by cell and the NaN-aware mean/min/max of NDVI and the four bands;
  - appends one 17-field row per scene to a CSV table that starts with a 17-column header;
  - uploads each clip and then the table under keys that share one run token;
  - makes the table public and returns its URL.
- **end_wf** (`EndWorkflow`, imperative). It writes a roll-up table: a 3-column header, then
  one `[name, order_url, s3url]` row per predecessor record. It uploads the table, makes it
  public and returns the closing record.

State that the steps change in place is modelled with classes:

- the CSV file (`Csv.CsvFile`), whose rows are only ever appended;
- the object store (`Storage.ObjectStore`), a log of uploads and public-read ACLs;
- the local scratch directory (`Fetch.LocalDisk`).

The loops of the source are `while`/`for` loops with invariants. Each is proved against a
function that describes its outcome: `Fetched`, `SummaryRows`, `ClipUploads` and `RollupRows`.
The properties of those functions are then proved as lemmas.

The environment enters as parameters:

- HTTP responses: `getStatus`, `body`, `search`, `order`;
- the raster reader: `decode`;
- the run's `uuid4().hex`: `token`;
- `os.environ`: `Env`.

NaN is `None`. Numbers are exact reals.

## Model

| member | source | states |
|---|---|---|
| `DownloadProcess.Classify` | demo-workflows/meadows-demo/tasks/download_and_process/main.py:40-45 | The order proceeds exactly when its state is `success` or `partial`. It is `Failed` exactly when the state is `failed`. Every other state is neither. |
| `DownloadProcess.ProcessOrder` | demo-workflows/meadows-demo/tasks/download_and_process/main.py:15-159 | With no predecessor, the step raises. An order that is not delivered returns `{order_url, name, s3url: ""}` with no downloads, no table and no uploads. A delivered order has every result fetched in result order, and the table is the header plus one row per scene before the first unreadable one. If every scene is readable, the clips are uploaded, then the table under the summary key; that key is made public and its URL is returned. Otherwise the step raises at the first unreadable scene, after the earlier clips were uploaded, and the table is not published. |
| `Fetch.FetchAll` | demo-workflows/meadows-demo/tasks/download_and_process/main.py:53-60 | The download loop leaves exactly the files and fetched locations that `Fetched` describes. Each result in turn is downloaded iff `overwrite` is on or its local path is absent at that moment. |
| `Fetch.ShouldDownload` | demo-workflows/meadows-demo/tasks/download_and_process/main.py:54 | Defined as `overwrite or not path.exists()`. Its promises are proved through `Fetched` and `FetchAll`. |
| `Fetch.Locations` | demo-workflows/meadows-demo/tasks/download_and_process/main.py:48 | There is one location per result, in result order: the result's `location`. |
| `Fetch.LocalDisk.Write` | demo-workflows/meadows-demo/tasks/download_and_process/main.py:58 | Writing a file replaces the content at that path and changes nothing else. |
| `Fetch.LocalDisk.constructor` | demo-workflows/meadows-demo/tasks/download_and_process/main.py:50-58 | The scratch directory starts with the given files. |
| `Fetch.LocalPath` | demo-workflows/meadows-demo/tasks/download_and_process/main.py:50 | Defined as `os.path.join('/tmp/data', name)`, where an absolute name replaces the directory. Its promises are proved in `LocalPathKeepsName`. |
| `Fetch.OverwriteFetchesEveryResult` | demo-workflows/meadows-demo/tasks/download_and_process/main.py:36-58 | With `overwrite` on, which line 36 fixes, every result's location is fetched once, in result order. |
| `Fetch.EveryResultPresent` | demo-workflows/meadows-demo/tasks/download_and_process/main.py:50-58 | After the loop every result has a local file, and no file that existed before has gone. |
| `Fetch.ExistingFilesKept` | demo-workflows/meadows-demo/tasks/download_and_process/main.py:54-60 | With `overwrite` off, an existing file is kept unchanged. Every location fetched belongs to a result whose file was missing. |
| `Fetch.Fetched` | demo-workflows/meadows-demo/tasks/download_and_process/main.py:53-60 | Defined as the download loop's outcome, result by result. Its promises are proved in `OverwriteFetchesEveryResult`, `EveryResultPresent`, `ExistingFilesKept`, `FetchedFiles`, `FetchesMissingLinks` and `FetchIsIdempotent`. |
| `Fetch.FetchedFiles` | demo-workflows/meadows-demo/tasks/download_and_process/main.py:50-58 | After the loop, a path has a local file iff it had one before or some result's local path is that path. |
| `Fetch.MissingLinks` | demo-workflows/meadows-demo/tasks/download_and_process/main.py:54-60 | Defined as the results whose local file exists neither at the start nor from an earlier result. Its promises are proved in `MissingLinksSpec` and `FetchesMissingLinks`. |
| `Fetch.MissingLinksSpec` | demo-workflows/meadows-demo/tasks/download_and_process/main.py:54-60 | Every result in `MissingLinks` had no local file at the start. No two of them share a local path. Every path missing at the start that some result names is among them. |
| `Fetch.MissingLinksFirst` | demo-workflows/meadows-demo/tasks/download_and_process/main.py:54-60 | Each result in `MissingLinks` is the first result whose local path is its path: no earlier result names that path. |
| `Fetch.FetchesMissingLinks` | demo-workflows/meadows-demo/tasks/download_and_process/main.py:54-60 | With `overwrite` off, the loop downloads exactly the `MissingLinks` results, in result order. A missing file is therefore downloaded once, and an existing one never. |
| `Fetch.NamesPathSplit` | demo-workflows/meadows-demo/tasks/download_and_process/main.py:50 | A path is named by a list of results iff its front names it or its last result does. |
| `Fetch.FetchIsIdempotent` | demo-workflows/meadows-demo/tasks/download_and_process/main.py:54-60 | With `overwrite` off, a second run over the same results fetches nothing and leaves the files as they were. |
| `Fetch.NothingMissingNothingFetched` | demo-workflows/meadows-demo/tasks/download_and_process/main.py:54-60 | With `overwrite` off and every result present, the loop fetches nothing and changes nothing. |
| `Fetch.LocalPathKeepsName` | demo-workflows/meadows-demo/tasks/download_and_process/main.py:50 | `os.path.join('/tmp/data', name)` ends in the name and has the same final component. A relative name lands under `/tmp/data/`. |
| `Fetch.BaseNameAfterSlash` | demo-workflows/meadows-demo/tasks/download_and_process/main.py:50 | Joining a directory in front of a name does not change the name's final component. |
| `Common.Distinct` | demo-workflows/meadows-demo/tasks/download_and_process/main.py:62 | The keys of `dict(zip(names, paths))` are exactly the names. Each appears once, and there are no more of them than names. |
| `Common.DistinctOfDistinct` | demo-workflows/meadows-demo/tasks/download_and_process/main.py:62 | A name list without repeats is its own key order. |
| `DownloadProcess.KeepClips` | demo-workflows/meadows-demo/tasks/download_and_process/main.py:63-64 | A name is kept iff it is listed and ends in `_3B_AnalyticMS_SR_clip.tif`. |
| `DownloadProcess.Names` | demo-workflows/meadows-demo/tasks/download_and_process/main.py:49 | There is one name per result, in result order: the result's `name`. |
| `DownloadProcess.ClipNames` | demo-workflows/meadows-demo/tasks/download_and_process/main.py:62-64 | Defined as the suffix filter of the keys of `dict(zip(names, paths))`. Its promises are proved in `ClipNamesSpec`. |
| `DownloadProcess.ClipNamesSpec` | demo-workflows/meadows-demo/tasks/download_and_process/main.py:62-64 | The scenes processed are exactly the result names ending in the clip suffix. Each appears once, in the order of its first occurrence among the results. When names do not repeat, this is the plain suffix filter of the result list. |
| `DownloadProcess.KeepClipsPreserves` | demo-workflows/meadows-demo/tasks/download_and_process/main.py:63-64 | Filtering a list without repeats yields a list without repeats. |
| `DownloadProcess.DistinctOrder` | demo-workflows/meadows-demo/tasks/download_and_process/main.py:62 | The dict's keys follow the order of the names' first occurrences. |
| `DownloadProcess.KeepClipsKeepsOrder` | demo-workflows/meadows-demo/tasks/download_and_process/main.py:63-64 | The suffix filter keeps the relative order of the names it keeps. |
| `DownloadProcess.ImageFiles` | demo-workflows/meadows-demo/tasks/download_and_process/main.py:50-64 | There is one local path per kept name, in the same order: the `/tmp/data` path of that name. |
| `DownloadProcess.FirstIndex` | demo-workflows/meadows-demo/tasks/download_and_process/main.py:62 | The index returned holds the name, and no earlier index does. |
| `Common.BaseNameIsLastComponent` | demo-workflows/meadows-demo/tasks/download_and_process/main.py:88-106 | `filename_clip.name` contains no `/` and ends the path. When it is shorter than the path, a `/` precedes it. |
| `Common.BaseName` | demo-workflows/meadows-demo/tasks/download_and_process/main.py:88-106 | Defined as the text after the last `/` of a path, which is `Path.name` for a path that does not end in `/`. Its promises are proved in `BaseNameIsLastComponent`, `BaseNameAfterSlash` and `LocalPathKeepsName`. |
| `Raster.NdviCell` | demo-workflows/meadows-demo/tasks/download_and_process/main.py:99-102 | The NDVI cell is NaN iff `nir + red == 0`, and no error is raised. Otherwise `v * (nir + red) == nir - red`, `-1 <= v <= 1`, and `v > 0` iff `nir > red`. |
| `Raster.RatioBounds` | demo-workflows/meadows-demo/tasks/download_and_process/main.py:102 | A ratio whose numerator is bounded in magnitude by a positive denominator lies in [-1, 1] and has the numerator's sign. |
| `Raster.NdviGrid` | demo-workflows/meadows-demo/tasks/download_and_process/main.py:102 | The NDVI array has the bands' shape. Each cell is the NDVI of the red and near-infrared values at the same position. |
| `Raster.BandCells` | demo-workflows/meadows-demo/tasks/download_and_process/main.py:110-121 | Defined as the cells of one band, flattened row by row, all defined. Its promises are proved in `FlattenMembers` and `BandStatsDefined`. |
| `Raster.NdviCells` | demo-workflows/meadows-demo/tasks/download_and_process/main.py:102-109 | Defined as the flattened NDVI array. Its promises are proved in `NdviGrid`, `NdviUndefinedIff` and `NdviStatsBounded`. |
| `Raster.Stats` | demo-workflows/meadows-demo/tasks/download_and_process/main.py:107-121 | Defined as the mean, minimum and maximum of NDVI or of one band of a scene. Its promises are proved in `BandStatsDefined`, `NdviUndefinedIff` and `NdviStatsBounded`. |
| `Raster.FlattenMembers` | demo-workflows/meadows-demo/tasks/download_and_process/main.py:107-121 | A cell is in the flattened array that NumPy reduces over iff it is in some row. |
| `NanStats.DefinedMembers` | demo-workflows/meadows-demo/tasks/download_and_process/main.py:107-121 | The defined cells are exactly the cells that are numbers. |
| `NanStats.DefinedCountSpec` | demo-workflows/meadows-demo/tasks/download_and_process/main.py:107-119 | At most every cell counts toward the mean. None counts iff every cell is NaN. |
| `NanStats.NanMinSpec` | demo-workflows/meadows-demo/tasks/download_and_process/main.py:108-120 | `nanmin` is NaN iff every cell is. Otherwise it is a defined cell, at most every defined cell. |
| `NanStats.NanMaxSpec` | demo-workflows/meadows-demo/tasks/download_and_process/main.py:109-121 | `nanmax` is NaN iff every cell is. Otherwise it is a defined cell, at least every defined cell. |
| `NanStats.NanMeanSpec` | demo-workflows/meadows-demo/tasks/download_and_process/main.py:107-119 | `nanmean` is NaN iff every cell is. Otherwise it times the number of defined cells is their sum. |
| `NanStats.SumAtLeast` | demo-workflows/meadows-demo/tasks/download_and_process/main.py:107-119 | A lower bound on every defined cell bounds their sum by count times the bound. |
| `NanStats.SumAtMost` | demo-workflows/meadows-demo/tasks/download_and_process/main.py:107-119 | An upper bound on every defined cell bounds their sum by count times the bound. |
| `NanStats.MinAtMostMean` | demo-workflows/meadows-demo/tasks/download_and_process/main.py:107-120 | With at least one defined cell, `nanmin <= nanmean`. |
| `NanStats.MeanAtMostMax` | demo-workflows/meadows-demo/tasks/download_and_process/main.py:107-121 | With at least one defined cell, `nanmean <= nanmax`. |
| `NanStats.QuotientAtLeast` | demo-workflows/meadows-demo/tasks/download_and_process/main.py:107 | A sum of at least `n * lo` over `n > 0` items averages at least `lo`. |
| `NanStats.QuotientAtMost` | demo-workflows/meadows-demo/tasks/download_and_process/main.py:107 | A sum of at most `n * hi` over `n > 0` items averages at most `hi`. |
| `NanStats.ReduceSpec` | demo-workflows/meadows-demo/tasks/download_and_process/main.py:107-121 | The three statistics are all NaN or all numbers. They are NaN iff every cell is. Otherwise `min <= mean <= max`, and min and max are cells of the array. |
| `NanStats.IgnoresUndefined` | demo-workflows/meadows-demo/tasks/download_and_process/main.py:107-121 | Dropping the NaN cells changes none of the three statistics. |
| `NanStats.SameFolds` | demo-workflows/meadows-demo/tasks/download_and_process/main.py:107-121 | The count, sum, minimum and maximum of the defined cells equal those of the whole array. |
| `NanStats.NanMin` | demo-workflows/meadows-demo/tasks/download_and_process/main.py:108-120 | Defined as `np.nanmin`: the least defined cell, or NaN when none is defined. Its promises are proved in `NanMinSpec` and `MinAtMostMean`. |
| `NanStats.NanMax` | demo-workflows/meadows-demo/tasks/download_and_process/main.py:109-121 | Defined as `np.nanmax`: the greatest defined cell, or NaN when none is defined. Its promises are proved in `NanMaxSpec` and `MeanAtMostMax`. |
| `NanStats.NanMean` | demo-workflows/meadows-demo/tasks/download_and_process/main.py:107-119 | Defined as `np.nanmean`: the sum of the defined cells over their count, or NaN when none is defined. Its promises are proved in `NanMeanSpec`, `MinAtMostMean` and `MeanAtMostMax`. |
| `NanStats.Reduce` | demo-workflows/meadows-demo/tasks/download_and_process/main.py:107-121 | Defined as the mean, minimum and maximum of one array. Its promises are proved in `ReduceSpec` and `IgnoresUndefined`. |
| `NanStats.AllUndefinedSplit` | demo-workflows/meadows-demo/tasks/download_and_process/main.py:107-121 | An array is all NaN iff its first cell and the rest are. |
| `Raster.BandStatsDefined` | demo-workflows/meadows-demo/tasks/download_and_process/main.py:110-121 | Band statistics are never NaN. They satisfy `min <= mean <= max`, and the minimum is non-negative. |
| `Raster.NdviUndefinedIff` | demo-workflows/meadows-demo/tasks/download_and_process/main.py:102-109 | The NDVI mean is NaN iff `nir + red == 0` at every pixel. |
| `Raster.NdviStatsBounded` | demo-workflows/meadows-demo/tasks/download_and_process/main.py:102-109 | Defined NDVI statistics satisfy `-1 <= min <= mean <= max <= 1`. |
| `Raster.ZeroRedAndNirGiveUndefinedNdvi` | demo-workflows/meadows-demo/tasks/download_and_process/main.py:99-109 | A scene with zero red and near-infrared bands gets NaN for all three NDVI statistics. |
| `DownloadProcess.HeaderNamesColumns` | demo-workflows/meadows-demo/tasks/download_and_process/main.py:69-70 | The header has 17 columns: `Name`, `Item_ID`, then `<measure>_<stat>` at each statistic's column. |
| `DownloadProcess.StatsRowColumns` | demo-workflows/meadows-demo/tasks/download_and_process/main.py:104-140 | A row has exactly the header's 17 fields: site, item id, then each statistic at the column the header names for it. |
| `DownloadProcess.StatsRowAppendOrder` | demo-workflows/meadows-demo/tasks/download_and_process/main.py:124-140 | The row is site, item id, then the mean/min/max triples of NDVI, red, blue, green and NIR, in that order. |
| `DownloadProcess.AppendOrder` | demo-workflows/meadows-demo/tasks/download_and_process/main.py:124-140 | Any 17-field row that carries each statistic at its header column is the triples appended in measure order. |
| `DownloadProcess.BuildRow` | demo-workflows/meadows-demo/tasks/download_and_process/main.py:104-140 | The `write` list built by seventeen appends is the scene's statistics row. |
| `DownloadProcess.StatsRowInvariant` | demo-workflows/meadows-demo/tasks/download_and_process/main.py:107-140 | In every row, each triple is all-NaN or `min <= mean <= max`. Band triples are always defined. The NDVI triple is NaN iff no pixel has `nir + red != 0`, and the row is written even then. |
| `DownloadProcess.ReadablePrefix` | demo-workflows/meadows-demo/tasks/download_and_process/main.py:77-85 | Every path before the returned position can be read, and the one at it cannot. |
| `DownloadProcess.ReadScene` | demo-workflows/meadows-demo/tasks/download_and_process/main.py:78-85 | Defined as decoding the local file's content, or no scene when the file is missing or cannot be decoded. Its promises are proved in `ReadablePrefix` and `SummarizeScenes`. |
| `DownloadProcess.ReadablePrefixUnique` | demo-workflows/meadows-demo/tasks/download_and_process/main.py:77-85 | That position is the only one with this property. |
| `DownloadProcess.SummarizeScenes` | demo-workflows/meadows-demo/tasks/download_and_process/main.py:77-144 | The loop stops at the first unreadable scene. It appends exactly `SummaryRows` for the scenes before it to the table, leaving earlier rows unchanged. It uploads exactly `ClipUploads` for them and makes nothing public. |
| `DownloadProcess.SummaryRowsSpec` | demo-workflows/meadows-demo/tasks/download_and_process/main.py:77-144 | There is one row per summarised scene, in processing order. Row `i` is the statistics row of scene `i` under its file name. |
| `DownloadProcess.ClipUploadsSpec` | demo-workflows/meadows-demo/tasks/download_and_process/main.py:88-89 | There is one clip upload per summarised scene, in processing order, under that file's clip key. |
| `DownloadProcess.SummaryRows` | demo-workflows/meadows-demo/tasks/download_and_process/main.py:77-144 | Defined as the statistics rows of the scenes before the first unreadable one. Its promises are proved in `SummaryRowsSpec` and `RowsExtend`. |
| `DownloadProcess.ClipUploads` | demo-workflows/meadows-demo/tasks/download_and_process/main.py:88-89 | Defined as one clip upload per scene, in order. Its promises are proved in `ClipUploadsSpec` and `UploadsExtend`. |
| `DownloadProcess.StatsRow` | demo-workflows/meadows-demo/tasks/download_and_process/main.py:104-140 | Defined field by field against the header columns. Its promises are proved in `StatsRowColumns`, `StatsRowAppendOrder` and `StatsRowInvariant`. |
| `DownloadProcess.AppendFields` | demo-workflows/meadows-demo/tasks/download_and_process/main.py:124-140 | The 17 appends leave the site, the item id, then the NDVI, red, blue, green and NIR triples, each as mean, min, max. |
| `DownloadProcess.ReadableExtend` | demo-workflows/meadows-demo/tasks/download_and_process/main.py:77-85 | A readable path after readable paths keeps the prefix readable. |
| `DownloadProcess.RowsExtend` | demo-workflows/meadows-demo/tasks/download_and_process/main.py:142-144 | One more scene extends the rows by exactly its row. |
| `DownloadProcess.UploadsExtend` | demo-workflows/meadows-demo/tasks/download_and_process/main.py:88-89 | One more scene extends the uploads by exactly its clip. |
| `DownloadProcess.ReadableStop` | demo-workflows/meadows-demo/tasks/download_and_process/main.py:77-85 | A loop that stopped at an unreadable path, or at the end, stopped at the readable prefix. |
| `DownloadProcess.SummaryKeyDecodes` | demo-workflows/meadows-demo/tasks/download_and_process/main.py:67-147 | The summary key is `output/Planet/<token>_<site>_v2_planet_summary.csv`, with the run token and the site readable back from it. |
| `DownloadProcess.SummaryKeyInjective` | demo-workflows/meadows-demo/tasks/download_and_process/main.py:67-147 | Different runs or different sites never share a summary key. |
| `DownloadProcess.ClipKeyDecodes` | demo-workflows/meadows-demo/tasks/download_and_process/main.py:67-88 | The clip key is `output/Planet/<site>/<token>/<file>`, with the same run token. |
| `DownloadProcess.ObjectUrlDecodes` | demo-workflows/meadows-demo/tasks/download_and_process/main.py:154 | The URL names the bucket and ends in the key. |
| `DownloadProcess.ClipKey` | demo-workflows/meadows-demo/tasks/download_and_process/main.py:88 | Defined as `'output/Planet/' + site + '/' + token + '/' + name`. Its promises are proved in `ClipKeyDecodes`. |
| `DownloadProcess.SummaryKey` | demo-workflows/meadows-demo/tasks/download_and_process/main.py:147 | Defined as `'output/Planet/' + token + '_' + site + '_v2_planet_summary.csv'`. Its promises are proved in `SummaryKeyDecodes` and `SummaryKeyInjective`. |
| `DownloadProcess.LocalSummaryPath` | demo-workflows/meadows-demo/tasks/download_and_process/main.py:72-148 | Defined as `FILEPATH + uuid + '_v2_planet_summary.csv'`, the one path that lines 72, 142 and 148 open, append to and upload. Its promises are proved in `ProcessOrder`. |
| `DownloadProcess.ObjectUrl` | demo-workflows/meadows-demo/tasks/download_and_process/main.py:154 | Defined as the bucket's public `s3.us-west-2` URL of the key. Its promises are proved in `ObjectUrlDecodes`. |
| `Csv.CsvFile.Create` | demo-workflows/meadows-demo/tasks/download_and_process/main.py:72-74 | Opening in mode `w` and writing the header leaves exactly the header. |
| `Csv.CsvFile.Append` | demo-workflows/meadows-demo/tasks/download_and_process/main.py:142-144 | An append-mode write adds one row at the end and keeps earlier rows. |
| `Storage.ObjectStore.UploadFile` | demo-workflows/meadows-demo/tasks/download_and_process/main.py:89 | One upload is recorded at the end of the log. No ACL changes. |
| `Storage.ObjectStore.MakePublic` | demo-workflows/meadows-demo/tasks/download_and_process/main.py:150-151 | One public-read ACL is recorded. No upload happens. |
| `Storage.ObjectStore.constructor` | demo-workflows/meadows-demo/tasks/download_and_process/main.py:11-13 | A fresh store has no uploads and no public objects. |
| `SearchOrder.SearchAndOrder` | demo-workflows/meadows-demo/tasks/search_and_order/main.py:9-166 | A missing predecessor `'1'` raises, and a non-OK search raises. If the order POST raises, reading `response` then raises. Otherwise the step returns a record. The record echoes the ids found, `count = len(ids)`, the geometry, the name and both times. `order_id` and `order_url` are set iff the order response is OK, with `order_url = orders_url + '/' + id`. Both are `""` otherwise. |
| `SearchOrder.SearchFilter` | demo-workflows/meadows-demo/tasks/search_and_order/main.py:25-61 | Defined as the AND of the geometry, date-range and cloud-cover filters. Its promises are proved in `SearchFilterMeaning` and `DateWindowHalfOpen`. |
| `SearchOrder.SiteGeometry` | demo-workflows/meadows-demo/tasks/search_and_order/main.py:26-29 | Defined as the `Polygon` over the site's coordinates. The same geometry is the clip AOI of lines 101-104. Its promises are proved in `OrderMatchesSearch` and `SearchFilterMeaning`. |
| `SearchOrder.SearchRequestFor` | demo-workflows/meadows-demo/tasks/search_and_order/main.py:63-67 | Defined as a `PSScene` search under `SearchFilter`. Its promises are proved with those of `SearchFilter`. |
| `SearchOrder.OrderRequestFor` | demo-workflows/meadows-demo/tasks/search_and_order/main.py:92-126 | Defined as a partial `analytic_sr_udm2` order of the ids, clipped to the site polygon and then harmonized. Its promises are proved in `OrderMatchesSearch`. |
| `SearchOrder.OrderUrl` | demo-workflows/meadows-demo/tasks/search_and_order/main.py:134-155 | Defined as `orders_url + '/' + id`. Its promises are proved in `OrderUrlRoundTrip` and `OrderUrlSetIffAccepted`. |
| `SearchOrder.ImageIds` | demo-workflows/meadows-demo/tasks/search_and_order/main.py:85 | The ids are the features' ids, in response order. |
| `SearchOrder.SearchFilterMeaning` | demo-workflows/meadows-demo/tasks/search_and_order/main.py:26-61 | The AND of geometry, date range and cloud cover admits an item iff it meets the polygon and was acquired in `[start, end)`. The cloud-cover filter restricts nothing. |
| `SearchOrder.DateWindowHalfOpen` | demo-workflows/meadows-demo/tasks/search_and_order/main.py:39-46 | An item acquired at `end_datetime` is excluded. One acquired at `start_datetime` is included when the window is non-empty. |
| `SearchOrder.BeforeIrreflexive` | demo-workflows/meadows-demo/tasks/search_and_order/main.py:43-44 | No timestamp is before itself. |
| `SearchOrder.OrderMatchesSearch` | demo-workflows/meadows-demo/tasks/search_and_order/main.py:93-126 | The order clips to the very polygon the search filtered on and orders exactly the ids found. Its tools are clip then harmonize to Sentinel-2. |
| `SearchOrder.OrderUrlRoundTrip` | demo-workflows/meadows-demo/tasks/search_and_order/main.py:134-155 | The order URL starts with `orders_url + '/'`, and the id can be read back from it. |
| `SearchOrder.OrderUrlSetIffAccepted` | demo-workflows/meadows-demo/tasks/search_and_order/main.py:147-155 | In a returned record, `order_url` is non-empty iff the order response was OK. |
| `EndWorkflow.EndWorkflow` | demo-workflows/meadows-demo/tasks/end_wf/main.py:10-58 | Without `predecessor_outputs` the step raises and nothing is written. Otherwise the table is the header plus one `[name, order_url, s3url]` row per record, in order. It is uploaded and made public under `output/Planet/<uuid>_summary.csv`, and the record returned is `{200, 'output/' + outfile_name, "End of workflow."}`. |
| `EndWorkflow.RollupRowsSpec` | demo-workflows/meadows-demo/tasks/end_wf/main.py:28-41 | There is one row per predecessor record, in iteration order, holding its name, order URL and table URL. |
| `EndWorkflow.RollupRows` | demo-workflows/meadows-demo/tasks/end_wf/main.py:28-41 | Defined as the rows for the records, in order. Its promises are proved in `RollupRowsSpec` and `RollupRowsAppend`. |
| `EndWorkflow.RollupRow` | demo-workflows/meadows-demo/tasks/end_wf/main.py:30-37 | Defined as `[name, order_url, s3url]` of one record. Its promises are proved in `RollupRowsSpec`. |
| `EndWorkflow.RollupKey` | demo-workflows/meadows-demo/tasks/end_wf/main.py:19-47 | Defined as `'output/Planet/' + uuid + '_summary.csv'`. Its promises are proved in `RollupKeyDecodes`, `RollupKeyInjective` and `WorkflowOutputIsNotTheUpload`. |
| `EndWorkflow.OutfileName` | demo-workflows/meadows-demo/tasks/end_wf/main.py:19 | Defined as `uuid + '_summary.csv'`. Its promises are proved in `WorkflowOutputIsNotTheUpload` and `EndWorkflow`. |
| `EndWorkflow.WorkflowOutput` | demo-workflows/meadows-demo/tasks/end_wf/main.py:54 | Defined as `'output/' + uuid + '_summary.csv'`. Its promises are proved in `WorkflowOutputIsNotTheUpload`. |
| `EndWorkflow.RollupRowsAppend` | demo-workflows/meadows-demo/tasks/end_wf/main.py:29-41 | Rows are only appended: the rows for a longer list extend the rows for its prefix. |
| `EndWorkflow.RollupKeyDecodes` | demo-workflows/meadows-demo/tasks/end_wf/main.py:18-47 | The uploaded key starts with `output/Planet/`, carries the run token next and ends in `_summary.csv`. |
| `EndWorkflow.RollupKeyInjective` | demo-workflows/meadows-demo/tasks/end_wf/main.py:18-47 | Two runs never share a roll-up key. |
| `EndWorkflow.WorkflowOutputIsNotTheUpload` | demo-workflows/meadows-demo/tasks/end_wf/main.py:44-56 | The reported `workflow_output` names the same file as the upload but is not the uploaded key. |

## Left out

- HTTP is not modelled: the status GET, the result GETs, the search and order POSTs, and the
  status and transport errors they can raise. Their responses are parameters.
- The raster reads are the parameter `decode`. A path that is missing or cannot be decoded
  reads as `None`. Rasterio's band layout, dtypes and file format are not modelled.
- The following sources of nondeterminism are parameters: `uuid.uuid4().hex` (a 32-digit
  lower-case hexadecimal token), `os.environ` (`Env`) and the credentials.
- The random `sleep(randint(50, 90))` before the order POST is left out: it affects timing
  only.
- `print` output is left out.
- CSV quoting and number-to-text formatting are left out. A row is a sequence of text or
  numeric fields, with NaN as `None`.
- IEEE rounding is not modelled. NDVI and the statistics are exact reals.
- Line 102 adds `band_nir + band_red` in the band's unsigned 16-bit dtype, which can wrap
  around. The model adds unbounded naturals instead.
- NdviCell, NdviUndefinedIff and NdviStatsBounded hold for the unbounded sum only. With a
  wrapped sum, line 102 behaves differently. A sum that wraps to zero (nir = 65535,
  red = 1) gives +inf, not NaN. A sum that wraps to a small value (nir = 40000,
  red = 30000 gives 4464) gives about 2.24, outside [-1, 1].
- The global `np.seterr` call and the `RuntimeWarning` that `nanmean`/`nanmin`/`nanmax` emit
  on all-NaN arrays are left out. Their results (NaN) are modelled.
- Filesystem failures (`mkdir`, `open`) are not modelled. `pathlib.Path` is modelled as a
  string, and `filename_clip.name` as its final component. Pathlib's normalisation is not
  modelled: it collapses `//` and `/./` and drops a trailing `/`. For such names,
  `str(filename_clip)` at line 89 differs from the model's path, and `Path.name` differs
  from `BaseName` for a path ending in `/`.
- S3 uploads and public-read ACL puts always succeed in the model. In the code, a boto3
  error raises and ends the step. In download_and_process this can happen at line 89,
  after the earlier clips were uploaded and before the current scene's row is appended, or
  at lines 148 and 151. In end_wf it can happen at lines 44-48.
- An unset `FILEPATH` or `S3_BUCKET_NAME` is not modelled; `Env` holds strings. What the
  code does:
  - In download_and_process `os.getenv` gives None (lines 30-31). An unset `FILEPATH` raises
    a `TypeError` at line 72. An unset `S3_BUCKET_NAME` raises at the first upload: line 89,
    or line 148 if no clip is kept.
  - In end_wf `os.environ[...]` raises a `KeyError` at lines 11-12, before anything is
    written.
- `load_sites/main.py` is not part of this model: it returns a fixed feature collection.
- A raster read is assumed to yield four bands of one non-empty shape with
  non-negative values. The zero-size arrays on which `nanmin` raises therefore cannot occur.
- In download_and_process the model follows the code:
  - results are always downloaded again (line 36), even when present;
  - a raster that cannot be read raises and ends the step at once.
- In search_and_order, an order POST that raises is swallowed at lines 142-143,
  after which line 145 reads the unbound `response`. The model records this as an error
  (`OrderRequestRaised`).
- In end_wf the model follows the code: the step uploads the roll-up to
  `output/Planet/<uuid>_summary.csv` but reports `output/<uuid>_summary.csv`, which it never
  writes (see `WorkflowOutputIsNotTheUpload`).
- Lookups of missing keys in the request records other than the ones modelled (`'1'`,
  `predecessor_outputs`) are left out: those records are typed values here.
