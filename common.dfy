/** Values shared by the three workflow tasks: optional values, task outcomes
    (a Python exception becomes an `Err`), byte contents and string helpers. */
module Common {

  /** `None` stands for Python's `None` and, for numeric cells, for NaN. */
  datatype Option<+T> = None | Some(value: T)

  /** The exceptions a workflow step can raise; the workflow runner retries the step on any of them. */
  datatype Error =
    | MissingPredecessor                // KeyError / IndexError on predecessor_outputs
    | SearchFailed(content: string)     // the search response was not OK
    | OrderRequestRaised                // the order POST raised, leaving `response` unbound
    | RasterUnreadable(path: string)    // rasterio could not open the local file

  datatype Result<+T> = Ok(value: T) | Err(error: Error)

  type Byte = x: int | 0 <= x < 256
  type Bytes = seq<Byte>

  /** Python's `str.endswith`. */
  predicate EndsWith(s: string, suffix: string) {
    |suffix| <= |s| && s[|s| - |suffix|..] == suffix
  }

  /** Python's `str.startswith`. */
  predicate StartsWith(s: string, prefix: string) {
    |prefix| <= |s| && s[..|prefix|] == prefix
  }

  /** The final component of a slash-separated path (pathlib's `.name`
      for a path that does not end in a separator). */
  function BaseName(path: string): string {
    if path == [] then []
    else if path[|path| - 1] == '/' then []
    else BaseName(path[..|path| - 1]) + [path[|path| - 1]]
  }

  /** The final component holds no separator, ends the path, and is either the whole
      path or preceded by a separator. */
  lemma {:induction false} BaseNameIsLastComponent(path: string)
    ensures '/' !in BaseName(path)
    ensures EndsWith(path, BaseName(path))
    ensures |BaseName(path)| < |path| ==> path[|path| - |BaseName(path)| - 1] == '/'
  {
    if path != [] && path[|path| - 1] != '/' {
      var front := path[..|path| - 1];
      BaseNameIsLastComponent(front);
      assert path == front + [path[|path| - 1]];
      assert path[|path| - |BaseName(path)|..] == front[|front| - |BaseName(front)|..] + [path[|path| - 1]];
    }
  }

  /** The key order of a Python dict built from `names`: each name once, at its first occurrence. */
  function Distinct(names: seq<string>): (d: seq<string>)
    ensures forall x :: x in d <==> x in names
    ensures NoDuplicates(d)
    ensures |d| <= |names|
  {
    if names == [] then []
    else
      var front := Distinct(names[..|names| - 1]);
      var last := names[|names| - 1];
      assert names == names[..|names| - 1] + [last];
      if last in front then front else front + [last]
  }

  predicate NoDuplicates(s: seq<string>) {
    forall i, j :: 0 <= i < j < |s| ==> s[i] != s[j]
  }

  /** A list without repeated names is its own dict key order. */
  lemma {:induction false} DistinctOfDistinct(names: seq<string>)
    requires NoDuplicates(names)
    ensures Distinct(names) == names
  {
    if names != [] {
      var front := names[..|names| - 1];
      assert NoDuplicates(front);
      DistinctOfDistinct(front);
      assert names[|names| - 1] !in front;
      assert names == front + [names[|names| - 1]];
    }
  }
}
