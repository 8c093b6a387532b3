/** The end_wf task: gather the records returned by the per-site tasks into one
    roll-up table (a header, then one row per record), publish it, and return the
    workflow's closing record. The run's uuid is the parameter `token`. */
module EndWorkflow {
  import opened Common
  import opened Csv
  import opened Storage
  import opened DownloadProcess

  const RollupHeader: seq<string> := ["Name", "order_url", "output_url"]
  const RollupSuffix: string := "_summary.csv"

  /** `predecessor_outputs`: the per-site records, in the dictionary's iteration order. */
  type Predecessors = seq<(string, TaskOutput)>

  /** The closing record of lines 52-56. */
  datatype EndOutput = EndOutput(statusCode: int, workflowOutput: string, body: string)

  /** `json.dumps('End of workflow.')`. */
  const EndBody: string := "\"End of workflow.\""

  function OutfileName(token: RunToken): string {
    token + RollupSuffix
  }

  /** The key the table is uploaded under and made public at (lines 44-47). */
  function RollupKey(token: RunToken): string {
    KeyPrefix + OutfileName(token)
  }

  /** The path the closing record reports (line 54). */
  function WorkflowOutput(token: RunToken): string {
    "output/" + OutfileName(token)
  }

  /** The row written for one predecessor record. */
  function RollupRow(o: TaskOutput): Row {
    TextRow([o.name, o.orderUrl, o.s3url])
  }

  /** The rows written for `items`, in order. */
  function RollupRows(items: Predecessors): seq<Row> {
    if items == [] then []
    else RollupRows(items[..|items| - 1]) + [RollupRow(items[|items| - 1].1)]
  }

  /** Lines 10-58. `request` is the parsed request's `predecessor_outputs`, None when it is
      missing (the lookup of line 15 raises before anything is written). Returns the closing
      record and the local roll-up table (null when none was written). */
  method EndWorkflow(request: Option<Predecessors>, env: Env, token: RunToken, store: ObjectStore)
    returns (out: Result<EndOutput>, table: CsvFile?)
    modifies store
    ensures request.None? ==>
              out == Err(MissingPredecessor) && table == null &&
              store.uploads == old(store.uploads) && store.publicObjects == old(store.publicObjects)
    ensures request.Some? ==>
              && table != null && fresh(table)
              && table.path == env.filepath + OutfileName(token)
              && table.rows == [TextRow(RollupHeader)] + RollupRows(request.value)
              && store.uploads == old(store.uploads) + [Upload(table.path, env.bucket, RollupKey(token))]
              && store.publicObjects == old(store.publicObjects) + [ObjectRef(env.bucket, RollupKey(token))]
              && out == Ok(EndOutput(200, WorkflowOutput(token), EndBody))
  {
    if request.None? {
      out, table := Err(MissingPredecessor), null;
      return;
    }
    var items := request.value;
    var outfile := OutfileName(token);
    table := new CsvFile.Create(env.filepath + outfile, TextRow(RollupHeader));
    for i := 0 to |items|
      invariant table.rows == [TextRow(RollupHeader)] + RollupRows(items[..i])
      invariant store.uploads == old(store.uploads) && store.publicObjects == old(store.publicObjects)
    {
      var item := items[i].1;
      var write: Row := [];
      write := write + [Text(item.name)];
      write := write + [Text(item.orderUrl)];
      write := write + [Text(item.s3url)];
      assert write == RollupRow(item);
      table.Append(write);
      assert items[..i + 1][..i] == items[..i];
    }
    assert items[..|items|] == items;
    store.UploadFile(table.path, env.bucket, KeyPrefix + outfile);
    store.MakePublic(env.bucket, KeyPrefix + outfile);
    out := Ok(EndOutput(200, "output/" + outfile, EndBody));
  }

  // ---------------------------------------------------------------------------
  // What the table and the keys promise

  /** One row per predecessor record, in iteration order, holding its name, order URL and
      table URL. */
  lemma {:induction false} RollupRowsSpec(items: Predecessors)
    ensures |RollupRows(items)| == |items|
    ensures forall i :: 0 <= i < |items| ==>
              RollupRows(items)[i] == [Text(items[i].1.name), Text(items[i].1.orderUrl), Text(items[i].1.s3url)]
  {
    if items != [] {
      RollupRowsSpec(items[..|items| - 1]);
    }
  }

  /** Rows are only appended: the rows for a longer list extend those for its prefix. */
  lemma {:induction false} RollupRowsAppend(first: Predecessors, later: Predecessors)
    ensures RollupRows(first + later) == RollupRows(first) + RollupRows(later)
  {
    if later == [] {
      assert first + later == first;
    } else {
      var front := later[..|later| - 1];
      assert (first + later)[..|first + later| - 1] == first + front;
      RollupRowsAppend(first, front);
    }
  }

  /** The uploaded key carries the run token right after `output/Planet/`, so two runs never
      share a key; the same key is uploaded and made public. */
  lemma {:induction false} RollupKeyDecodes(token: RunToken)
    ensures StartsWith(RollupKey(token), KeyPrefix)
    ensures RollupKey(token)[|KeyPrefix|..|KeyPrefix| + 32] == token
    ensures EndsWith(RollupKey(token), RollupSuffix)
  {
  }

  lemma RollupKeyInjective(t1: RunToken, t2: RunToken)
    requires RollupKey(t1) == RollupKey(t2)
    ensures t1 == t2
  {
    RollupKeyDecodes(t1);
    RollupKeyDecodes(t2);
  }

  /** The reported path names the same file as the upload, but without the `Planet/`
      directory: it is not a key the step writes. */
  lemma {:induction false} WorkflowOutputIsNotTheUpload(token: RunToken)
    ensures WorkflowOutput(token) != RollupKey(token)
    ensures EndsWith(WorkflowOutput(token), OutfileName(token)) && EndsWith(RollupKey(token), OutfileName(token))
  {
  }
}
