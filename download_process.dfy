/** The download_and_process task: read the status of the order placed for one site;
    when it was delivered, fetch its results, summarise every clipped analytic scene into a
    row of NDVI and band statistics, publish the clips and the summary table, and
    report the table's public URL. */
module DownloadProcess {
  import opened Common
  import opened NanStats
  import opened Raster
  import opened Csv
  import opened Storage
  import opened Fetch
  import SearchOrder

  // ---------------------------------------------------------------------------
  // Order state (lines 40-45)

  datatype OrderState = Failed | Delivered | NotDelivered

  /** `failed`, one of the success states `success` / `partial`, or anything else. */
  function Classify(state: string): (c: OrderState)
    ensures c == Delivered <==> state == "success" || state == "partial"
    ensures c == Failed <==> state == "failed"
  {
    if state == "failed" then Failed
    else if state in ["success", "partial"] then Delivered
    else NotDelivered
  }

  /** The order status document: its state and its `_links.results`. */
  datatype OrderStatus = OrderStatus(state: string, results: seq<ResultLink>)

  /** Line 36: results are always downloaded again. */
  const Overwrite: bool := true

  // ---------------------------------------------------------------------------
  // Which downloaded files are scenes to summarise (lines 62-64)

  const ClipSuffix: string := "_3B_AnalyticMS_SR_clip.tif"

  function Names(links: seq<ResultLink>): (names: seq<string>)
    ensures |names| == |links|
    ensures forall i :: 0 <= i < |links| ==> names[i] == links[i].name
  {
    seq(|links|, i requires 0 <= i < |links| => links[i].name)
  }

  /** The names that end in the clip suffix, in their order. */
  function KeepClips(names: seq<string>): (kept: seq<string>)
    ensures forall x :: x in kept <==> x in names && EndsWith(x, ClipSuffix)
    ensures |kept| <= |names|
  {
    if names == [] then []
    else
      var front := KeepClips(names[..|names| - 1]);
      var last := names[|names| - 1];
      assert names == names[..|names| - 1] + [last];
      if EndsWith(last, ClipSuffix) then front + [last] else front
  }

  /** The keys of `dict(zip(names, paths))` that end in the clip suffix. */
  function ClipNames(links: seq<ResultLink>): seq<string> {
    KeepClips(Distinct(Names(links)))
  }

  /** The local paths of the scenes to summarise, in processing order. */
  function ImageFiles(links: seq<ResultLink>): (paths: seq<string>)
    ensures |paths| == |ClipNames(links)|
    ensures forall i :: 0 <= i < |paths| ==> paths[i] == LocalPath(ClipNames(links)[i])
  {
    var names := ClipNames(links);
    seq(|names|, i requires 0 <= i < |names| => LocalPath(names[i]))
  }

  /** Index of the first occurrence of `x` in `s`. */
  function FirstIndex(s: seq<string>, x: string): (k: nat)
    requires x in s
    ensures k < |s| && s[k] == x && x !in s[..k]
  {
    if s[0] == x then 0
    else
      var k := 1 + FirstIndex(s[1..], x);
      assert s[..k] == [s[0]] + s[1..][..k - 1];
      k
  }

  /** `r` lists names of `s` in the order of their first occurrence in `s`. */
  predicate FirstOccurrenceOrder(r: seq<string>, s: seq<string>) {
    forall i, j :: 0 <= i < j < |r| && r[i] in s && r[j] in s ==> FirstIndex(s, r[i]) < FirstIndex(s, r[j])
  }

  /** The scenes processed are exactly the distinct result names ending in the clip suffix,
      each once, in the order the order listed them first. */
  lemma ClipNamesSpec(links: seq<ResultLink>)
    ensures forall x :: x in ClipNames(links) <==> x in Names(links) && EndsWith(x, ClipSuffix)
    ensures NoDuplicates(ClipNames(links))
    ensures FirstOccurrenceOrder(ClipNames(links), Names(links))
    ensures NoDuplicates(Names(links)) ==> ClipNames(links) == KeepClips(Names(links))
  {
    var names := Names(links);
    KeepClipsPreserves(Distinct(names));
    DistinctOrder(names);
    KeepClipsKeepsOrder(Distinct(names), names);
    if NoDuplicates(names) {
      DistinctOfDistinct(names);
    }
  }

  lemma {:induction false} KeepClipsPreserves(names: seq<string>)
    requires NoDuplicates(names)
    ensures NoDuplicates(KeepClips(names))
  {
    if names != [] {
      var front := names[..|names| - 1];
      assert NoDuplicates(front);
      KeepClipsPreserves(front);
      assert names[|names| - 1] !in front;
    }
  }

  lemma {:induction false} DistinctOrder(names: seq<string>)
    ensures FirstOccurrenceOrder(Distinct(names), names)
  {
    if names != [] {
      var front, last := names[..|names| - 1], names[|names| - 1];
      var d := Distinct(front);
      DistinctOrder(front);
      FirstIndexExtend(front, last);
      assert names == front + [last];
      if last !in front {
        assert FirstIndex(names, last) == |front|;
      }
    }
  }

  lemma FirstIndexExtend(front: seq<string>, last: string)
    ensures forall x :: x in front ==> FirstIndex(front + [last], x) == FirstIndex(front, x)
  {
    forall x | x in front ensures FirstIndex(front + [last], x) == FirstIndex(front, x) {
      FirstIndexUnique(front + [last], x, FirstIndex(front, x));
    }
  }

  /** The first index is the one before which `x` does not occur. */
  lemma FirstIndexUnique(s: seq<string>, x: string, k: nat)
    requires k < |s| && s[k] == x && x !in s[..k]
    ensures FirstIndex(s, x) == k
  {
  }

  lemma {:induction false} KeepClipsKeepsOrder(d: seq<string>, s: seq<string>)
    requires FirstOccurrenceOrder(d, s)
    ensures FirstOccurrenceOrder(KeepClips(d), s)
  {
    if d != [] {
      var front := d[..|d| - 1];
      assert FirstOccurrenceOrder(front, s);
      KeepClipsKeepsOrder(front, s);
      var last := d[|d| - 1];
      if EndsWith(last, ClipSuffix) && last in s {
        var kept := KeepClips(d);
        assert kept == KeepClips(front) + [last];
        forall i | 0 <= i < |kept| - 1 && kept[i] in s
          ensures FirstIndex(s, kept[i]) < FirstIndex(s, last)
        {
          assert kept[i] == KeepClips(front)[i];
          assert kept[i] in front;
          var j :| 0 <= j < |front| && front[j] == kept[i];
          assert d[j] == kept[i];
        }
      }
    }
  }

  // ---------------------------------------------------------------------------
  // The statistics row (lines 69-70, 104-140)

  const Header: seq<string> :=
    ["Name", "Item_ID", "ndvi_mean", "ndvi_min", "ndvi_max", "red_mean", "red_min", "red_max",
     "blue_mean", "blue_min", "blue_max", "green_mean", "green_min", "green_max",
     "nir_mean", "nir_min", "nir_max"]

  datatype Stat = Mean | Min | Max

  function MeasureName(m: Measure): string {
    match m
    case Ndvi => "ndvi"
    case Red => "red"
    case Blue => "blue"
    case Green => "green"
    case Nir => "nir"
  }

  function StatName(s: Stat): string {
    match s
    case Mean => "mean"
    case Min => "min"
    case Max => "max"
  }

  function MeasureIndex(m: Measure): nat {
    match m
    case Ndvi => 0
    case Red => 1
    case Blue => 2
    case Green => 3
    case Nir => 4
  }

  function StatIndex(s: Stat): nat {
    match s
    case Mean => 0
    case Min => 1
    case Max => 2
  }

  /** The column of statistic `s` of measure `m`. */
  function Column(m: Measure, s: Stat): nat {
    2 + 3 * MeasureIndex(m) + StatIndex(s)
  }

  function Pick(summary: Summary, s: Stat): Option<real> {
    match s
    case Mean => summary.mean
    case Min => summary.min
    case Max => summary.max
  }

  /** The header has 17 columns, naming the site, the item, then `<measure>_<stat>`
      at each statistic's column. */
  lemma HeaderNamesColumns()
    ensures |Header| == 17 && Header[0] == "Name" && Header[1] == "Item_ID"
    ensures forall m, s :: Column(m, s) < 17 && Header[Column(m, s)] == MeasureName(m) + "_" + StatName(s)
  {
  }

  /** The measure whose statistics fill columns `2 + 3 * k` to `4 + 3 * k`. */
  function MeasureAt(k: nat): Measure
    requires k < 5
  {
    if k == 0 then Ndvi else if k == 1 then Red else if k == 2 then Blue else if k == 3 then Green else Nir
  }

  function StatAt(k: nat): Stat
    requires k < 3
  {
    if k == 0 then Mean else if k == 1 then Min else Max
  }

  /** Field `j` of the row written for a scene. */
  function StatsField(site: string, itemId: string, scene: Scene, j: nat): Field
    requires j < |Header|
  {
    if j == 0 then Text(site)
    else if j == 1 then Text(itemId)
    else Num(Pick(Stats(scene, MeasureAt((j - 2) / 3)), StatAt((j - 2) % 3)))
  }

  /** The 17 fields written for one scene (lines 124-140). */
  function StatsRow(site: string, itemId: string, scene: Scene): Row {
    seq(|Header|, j requires 0 <= j < |Header| => StatsField(site, itemId, scene, j))
  }

  function Triple(summary: Summary): Row {
    [Num(summary.mean), Num(summary.min), Num(summary.max)]
  }

  /** The row is aligned with the header: the site, the item, then at the column the
      header names `<measure>_<stat>` that statistic of that measure. */
  lemma StatsRowColumns(site: string, itemId: string, scene: Scene)
    ensures var row := StatsRow(site, itemId, scene);
            && |row| == |Header|
            && row[0] == Text(site) && row[1] == Text(itemId)
            && forall m, s :: Column(m, s) < |row| && row[Column(m, s)] == Num(Pick(Stats(scene, m), s))
  {
    var row := StatsRow(site, itemId, scene);
    forall m, s ensures Column(m, s) < |row| && row[Column(m, s)] == Num(Pick(Stats(scene, m), s)) {
      var j := Column(m, s);
      assert (j - 2) / 3 == MeasureIndex(m) && (j - 2) % 3 == StatIndex(s);
      assert MeasureAt(MeasureIndex(m)) == m && StatAt(StatIndex(s)) == s;
    }
  }

  /** The row as lines 124-140 append it: site, item id, then the NDVI, red, blue, green and
      near-infrared triples of mean, min and max. */
  lemma StatsRowAppendOrder(site: string, itemId: string, scene: Scene)
    ensures StatsRow(site, itemId, scene) ==
              [Text(site), Text(itemId)] + Triple(Stats(scene, Ndvi)) + Triple(Stats(scene, Red)) +
              Triple(Stats(scene, Blue)) + Triple(Stats(scene, Green)) + Triple(Stats(scene, Nir))
  {
    StatsRowColumns(site, itemId, scene);
    AppendOrder(StatsRow(site, itemId, scene), site, itemId, m => Stats(scene, m));
  }

  lemma AppendOrder(row: Row, site: string, itemId: string, stats: Measure -> Summary)
    requires |row| == |Header| && row[0] == Text(site) && row[1] == Text(itemId)
    requires forall m, s :: Column(m, s) < |row| && row[Column(m, s)] == Num(Pick(stats(m), s))
    ensures row == [Text(site), Text(itemId)] + Triple(stats(Ndvi)) + Triple(stats(Red)) +
                   Triple(stats(Blue)) + Triple(stats(Green)) + Triple(stats(Nir))
  {
    var written := [Text(site), Text(itemId)] + Triple(stats(Ndvi)) + Triple(stats(Red)) +
                   Triple(stats(Blue)) + Triple(stats(Green)) + Triple(stats(Nir));
    forall j | 2 <= j < |Header| ensures row[j] == written[j] {
      var m, s := MeasureAt((j - 2) / 3), StatAt((j - 2) % 3);
      assert j == Column(m, s);
    }
  }

  /** Every triple written satisfies the statistics invariant; band triples are always
      defined, and the NDVI triple is undefined exactly when no pixel has `nir + red != 0`. */
  lemma StatsRowInvariant(site: string, itemId: string, scene: Scene, m: Measure)
    ensures var row := StatsRow(site, itemId, scene);
            var mean, lo, hi := row[Column(m, Mean)].number, row[Column(m, Min)].number, row[Column(m, Max)].number;
            && (mean.None? <==> lo.None?) && (mean.None? <==> hi.None?)
            && (mean.Some? ==> lo.value <= mean.value <= hi.value)
            && (m != Ndvi ==> mean.Some?)
            && (m == Ndvi ==> (mean.None? <==>
                  forall i, j :: 0 <= i < Height(scene) && 0 <= j < Width(scene) ==>
                    scene.nir[i][j] + scene.red[i][j] == 0))
  {
    var row := StatsRow(site, itemId, scene);
    StatsRowColumns(site, itemId, scene);
    var st := Stats(scene, m);
    assert row[Column(m, Mean)].number == st.mean;
    assert row[Column(m, Min)].number == st.min;
    assert row[Column(m, Max)].number == st.max;
    ReduceSpec(MeasureCells(scene, m));
    if m != Ndvi {
      BandStatsDefined(scene, m);
    } else {
      NdviUndefinedIff(scene);
    }
  }

  // ---------------------------------------------------------------------------
  // Storage keys and the public URL (lines 67, 72, 88, 147, 154)

  predicate IsRunToken(t: string) {
    |t| == 32 && forall c :: c in t ==> c in "0123456789abcdef"
  }

  /** `uuid.uuid4().hex`: 32 lower-case hexadecimal digits, drawn once per run. */
  type RunToken = t: string | IsRunToken(t) witness "00000000000000000000000000000000"

  const KeyPrefix: string := "output/Planet/"
  const SummarySuffix: string := "_v2_planet_summary.csv"

  function ClipKey(site: string, token: RunToken, fileName: string): string {
    KeyPrefix + site + "/" + token + "/" + fileName
  }

  function SummaryKey(token: RunToken, site: string): string {
    KeyPrefix + token + "_" + site + SummarySuffix
  }

  function LocalSummaryPath(filepath: string, token: RunToken): string {
    filepath + token + SummarySuffix
  }

  function ObjectUrl(bucket: string, key: string): string {
    "https://" + bucket + ".s3.us-west-2.amazonaws.com/" + key
  }

  /** The run token and the site can be read back from a summary key, so two runs or two
      sites never share one. */
  lemma {:induction false} SummaryKeyDecodes(token: RunToken, site: string)
    ensures var key := SummaryKey(token, site);
            && |key| == |KeyPrefix| + 33 + |site| + |SummarySuffix|
            && key[|KeyPrefix|..|KeyPrefix| + 32] == token
            && key[|KeyPrefix| + 33..|key| - |SummarySuffix|] == site
  {
  }

  lemma SummaryKeyInjective(t1: RunToken, s1: string, t2: RunToken, s2: string)
    requires SummaryKey(t1, s1) == SummaryKey(t2, s2)
    ensures t1 == t2 && s1 == s2
  {
    SummaryKeyDecodes(t1, s1);
    SummaryKeyDecodes(t2, s2);
  }

  /** A clip key carries the same run token, right after the site's directory, and ends in
      the file name. */
  lemma {:induction false} ClipKeyDecodes(site: string, token: RunToken, fileName: string)
    ensures var key := ClipKey(site, token, fileName);
            var at := |KeyPrefix| + |site| + 1;
            && |key| == at + 33 + |fileName|
            && key[..at] == KeyPrefix + site + "/"
            && key[at..at + 32] == token
            && key[at + 33..] == fileName
  {
  }

  /** The published URL names the bucket and ends in the key. */
  lemma {:induction false} ObjectUrlDecodes(bucket: string, key: string)
    ensures StartsWith(ObjectUrl(bucket, key), "https://" + bucket + ".")
    ensures EndsWith(ObjectUrl(bucket, key), key)
  {
  }

  // ---------------------------------------------------------------------------
  // The per-scene loop (lines 77-144)

  /** Reading the four bands of a local file; `decode` stands for rasterio and yields None
      where the file cannot be opened as a four-band raster. */
  function ReadScene(files: map<string, Bytes>, decode: Bytes -> Option<Scene>, path: string): Option<Scene> {
    if path in files then decode(files[path]) else None
  }

  /** How many leading paths can be read: the loop raises at the first one that cannot. */
  function ReadablePrefix(files: map<string, Bytes>, decode: Bytes -> Option<Scene>, paths: seq<string>): (n: nat)
    ensures n <= |paths|
    ensures forall i :: 0 <= i < n ==> ReadScene(files, decode, paths[i]).Some?
    ensures n < |paths| ==> ReadScene(files, decode, paths[n]).None?
  {
    if paths == [] || ReadScene(files, decode, paths[0]).None? then 0
    else 1 + ReadablePrefix(files, decode, paths[1..])
  }

  lemma {:induction false} ReadablePrefixUnique(files: map<string, Bytes>, decode: Bytes -> Option<Scene>,
                                               paths: seq<string>, n: nat)
    requires n <= |paths|
    requires forall i :: 0 <= i < n ==> ReadScene(files, decode, paths[i]).Some?
    requires n < |paths| ==> ReadScene(files, decode, paths[n]).None?
    ensures ReadablePrefix(files, decode, paths) == n
  {
  }

  predicate AllReadable(files: map<string, Bytes>, decode: Bytes -> Option<Scene>, paths: seq<string>) {
    forall i :: 0 <= i < |paths| ==> ReadScene(files, decode, paths[i]).Some?
  }

  /** The rows written for `paths`, one per scene, in order; the item id is the file name. */
  function SummaryRows(site: string, files: map<string, Bytes>, decode: Bytes -> Option<Scene>,
                       paths: seq<string>): seq<Row>
    requires AllReadable(files, decode, paths)
  {
    if paths == [] then []
    else
      var last := paths[|paths| - 1];
      SummaryRows(site, files, decode, paths[..|paths| - 1]) +
      [StatsRow(site, BaseName(last), ReadScene(files, decode, last).value)]
  }

  /** The clip uploads made for `paths`, one per scene, in order. */
  function ClipUploads(site: string, token: RunToken, bucket: string, paths: seq<string>): seq<Upload> {
    if paths == [] then []
    else
      var last := paths[|paths| - 1];
      ClipUploads(site, token, bucket, paths[..|paths| - 1]) + [Upload(last, bucket, ClipKey(site, token, BaseName(last)))]
  }

  /** One more readable path keeps the prefix readable. */
  lemma ReadableExtend(files: map<string, Bytes>, decode: Bytes -> Option<Scene>, before: seq<string>, path: string)
    requires AllReadable(files, decode, before) && ReadScene(files, decode, path).Some?
    ensures AllReadable(files, decode, before + [path])
  {
  }

  /** Appending a readable path extends the rows by that scene's row. */
  lemma RowsExtend(site: string, files: map<string, Bytes>, decode: Bytes -> Option<Scene>,
                   before: seq<string>, path: string)
    requires AllReadable(files, decode, before) && ReadScene(files, decode, path).Some?
    requires AllReadable(files, decode, before + [path])
    ensures SummaryRows(site, files, decode, before + [path]) ==
              SummaryRows(site, files, decode, before) +
              [StatsRow(site, BaseName(path), ReadScene(files, decode, path).value)]
  {
  }

  /** The loop stops exactly at the first unreadable path. */
  lemma ReadableStop(files: map<string, Bytes>, decode: Bytes -> Option<Scene>, paths: seq<string>, done: nat)
    requires done <= |paths| && AllReadable(files, decode, paths[..done])
    requires done < |paths| ==> ReadScene(files, decode, paths[done]).None?
    ensures ReadablePrefix(files, decode, paths) == done
  {
  }

  /** Appending a path extends the uploads by that clip's upload. */
  lemma UploadsExtend(site: string, token: RunToken, bucket: string, before: seq<string>, path: string)
    ensures ClipUploads(site, token, bucket, before + [path]) ==
              ClipUploads(site, token, bucket, before) + [Upload(path, bucket, ClipKey(site, token, BaseName(path)))]
  {
  }

  /** Exactly one row per summarised scene, in processing order: row `i` is the statistics
      row of the `i`-th path, under that file's name. */
  lemma {:induction false} SummaryRowsSpec(site: string, files: map<string, Bytes>,
                                          decode: Bytes -> Option<Scene>, paths: seq<string>)
    requires AllReadable(files, decode, paths)
    ensures |SummaryRows(site, files, decode, paths)| == |paths|
    ensures forall i :: 0 <= i < |paths| ==>
              SummaryRows(site, files, decode, paths)[i] ==
              StatsRow(site, BaseName(paths[i]), ReadScene(files, decode, paths[i]).value)
  {
    if paths != [] {
      var front := paths[..|paths| - 1];
      assert AllReadable(files, decode, front) by {
        assert forall i :: 0 <= i < |front| ==> front[i] == paths[i];
      }
      SummaryRowsSpec(site, files, decode, front);
    }
  }

  /** Exactly one clip upload per summarised scene, in processing order, each under the
      run's clip key for that file's name. */
  lemma {:induction false} ClipUploadsSpec(site: string, token: RunToken, bucket: string, paths: seq<string>)
    ensures |ClipUploads(site, token, bucket, paths)| == |paths|
    ensures forall i :: 0 <= i < |paths| ==>
              ClipUploads(site, token, bucket, paths)[i] ==
              Upload(paths[i], bucket, ClipKey(site, token, BaseName(paths[i])))
  {
    if paths != [] {
      ClipUploadsSpec(site, token, bucket, paths[..|paths| - 1]);
    }
  }

  /** Lines 104-140: the `write` list grown by one append per field, from the statistics
      computed in lines 107-121. */
  method BuildRow(site: string, itemId: string, scene: Scene) returns (write: Row)
    ensures write == StatsRow(site, itemId, scene)
  {
    write := AppendFields(site, itemId, Stats(scene, Ndvi), Stats(scene, Red), Stats(scene, Blue),
                          Stats(scene, Green), Stats(scene, Nir));
    StatsRowAppendOrder(site, itemId, scene);
  }

  method AppendFields(site: string, itemId: string, ndvi: Summary, red: Summary, blue: Summary,
                      green: Summary, nir: Summary) returns (write: Row)
    ensures write == [Text(site), Text(itemId)] + Triple(ndvi) + Triple(red) + Triple(blue) +
                     Triple(green) + Triple(nir)
  {
    write := [];
    write := write + [Text(site)];
    write := write + [Text(itemId)];
    write := write + [Num(ndvi.mean)];
    write := write + [Num(ndvi.min)];
    write := write + [Num(ndvi.max)];
    write := write + [Num(red.mean)];
    write := write + [Num(red.min)];
    write := write + [Num(red.max)];
    write := write + [Num(blue.mean)];
    write := write + [Num(blue.min)];
    write := write + [Num(blue.max)];
    write := write + [Num(green.mean)];
    write := write + [Num(green.min)];
    write := write + [Num(green.max)];
    write := write + [Num(nir.mean)];
    write := write + [Num(nir.min)];
    write := write + [Num(nir.max)];
  }

  /** Lines 77-144: for each scene, read its bands, upload the clip, append its row.
      Returns how many scenes were summarised before a file could not be read. */
  method SummarizeScenes(site: string, token: RunToken, bucket: string, paths: seq<string>,
                         files: map<string, Bytes>, decode: Bytes -> Option<Scene>,
                         table: CsvFile, store: ObjectStore)
    returns (done: nat)
    modifies table, store
    ensures done == ReadablePrefix(files, decode, paths)
    ensures table.rows == old(table.rows) + SummaryRows(site, files, decode, paths[..done])
    ensures store.uploads == old(store.uploads) + ClipUploads(site, token, bucket, paths[..done])
    ensures store.publicObjects == old(store.publicObjects)
  {
    done := 0;
    while done < |paths|
      invariant done <= |paths|
      invariant AllReadable(files, decode, paths[..done])
      invariant table.rows == old(table.rows) + SummaryRows(site, files, decode, paths[..done])
      invariant store.uploads == old(store.uploads) + ClipUploads(site, token, bucket, paths[..done])
      invariant store.publicObjects == old(store.publicObjects)
      decreases |paths| - done
    {
      var path := paths[done];
      var scene := ReadScene(files, decode, path);
      if scene.None? {
        break;
      }
      var itemId := BaseName(path);
      store.UploadFile(path, bucket, ClipKey(site, token, itemId));
      var write := BuildRow(site, itemId, scene.value);
      table.Append(write);
      assert paths[..done + 1] == paths[..done] + [path];
      ReadableExtend(files, decode, paths[..done], path);
      RowsExtend(site, files, decode, paths[..done], path);
      UploadsExtend(site, token, bucket, paths[..done], path);
      done := done + 1;
    }
    ReadableStop(files, decode, paths, done);
  }

  // ---------------------------------------------------------------------------
  // The whole step (lines 15-159)

  /** The configuration read from the environment. */
  datatype Env = Env(bucket: string, filepath: string)

  /** The record the step returns; `s3url` is empty when the order was not delivered. */
  datatype TaskOutput = TaskOutput(orderUrl: string, name: string, s3url: string)

  /** One run of the step. `pred` lists the predecessor outputs in order, `token` is the
      run's uuid, `getStatus` the order-status GET, `body` the result GETs and `decode` the raster
      reader. Returns the step's record (or the exception it raises), the locations fetched
      and the local summary table (null when no table was written). */
  method ProcessOrder(pred: seq<(string, SearchOrder.TaskOutput)>, env: Env, token: RunToken,
                      getStatus: string -> OrderStatus, body: string -> Bytes,
                      decode: Bytes -> Option<Scene>, disk: LocalDisk, store: ObjectStore)
    returns (out: Result<TaskOutput>, fetched: seq<string>, table: CsvFile?)
    modifies disk, store
    ensures pred == [] ==>
              out == Err(MissingPredecessor) && fetched == [] && table == null &&
              disk.files == old(disk.files) &&
              store.uploads == old(store.uploads) && store.publicObjects == old(store.publicObjects)
    ensures pred != [] && Classify(getStatus(pred[0].1.orderUrl).state) != Delivered ==>
              out == Ok(TaskOutput(pred[0].1.orderUrl, pred[0].1.name, "")) &&
              fetched == [] && table == null && disk.files == old(disk.files) &&
              store.uploads == old(store.uploads) && store.publicObjects == old(store.publicObjects)
    ensures pred != [] && Classify(getStatus(pred[0].1.orderUrl).state) == Delivered ==>
              var orderUrl, site := pred[0].1.orderUrl, pred[0].1.name;
              var links := getStatus(orderUrl).results;
              var paths := ImageFiles(links);
              var done := ReadablePrefix(disk.files, decode, paths);
              var key := SummaryKey(token, site);
              && Transfer(disk.files, fetched) == Fetched(old(disk.files), links, Overwrite, body)
              && fetched == Locations(links)
              && table != null && fresh(table)
              && table.path == LocalSummaryPath(env.filepath, token)
              && table.rows == [TextRow(Header)] + SummaryRows(site, disk.files, decode, paths[..done])
              && (done < |paths| ==>
                    && out == Err(RasterUnreadable(paths[done]))
                    && store.uploads == old(store.uploads) + ClipUploads(site, token, env.bucket, paths[..done])
                    && store.publicObjects == old(store.publicObjects))
              && (done == |paths| ==>
                    && out == Ok(TaskOutput(orderUrl, site, ObjectUrl(env.bucket, key)))
                    && store.uploads == old(store.uploads) + ClipUploads(site, token, env.bucket, paths) +
                                        [Upload(table.path, env.bucket, key)]
                    && store.publicObjects == old(store.publicObjects) + [ObjectRef(env.bucket, key)])
  {
    fetched, table := [], null;
    if pred == [] {
      out := Err(MissingPredecessor);
      return;
    }
    var orderUrl, site := pred[0].1.orderUrl, pred[0].1.name;
    var status := getStatus(orderUrl);
    if Classify(status.state) != Delivered {
      out := Ok(TaskOutput(orderUrl, site, ""));
      return;
    }
    fetched := FetchAll(disk, status.results, Overwrite, body);
    OverwriteFetchesEveryResult(old(disk.files), status.results, body);
    var paths := ImageFiles(status.results);
    table := new CsvFile.Create(LocalSummaryPath(env.filepath, token), TextRow(Header));
    var done := SummarizeScenes(site, token, env.bucket, paths, disk.files, decode, table, store);
    if done < |paths| {
      out := Err(RasterUnreadable(paths[done]));
      return;
    }
    assert paths[..done] == paths;
    var key := SummaryKey(token, site);
    store.UploadFile(table.path, env.bucket, key);
    store.MakePublic(env.bucket, key);
    out := Ok(TaskOutput(orderUrl, site, ObjectUrl(env.bucket, key)));
  }
}
