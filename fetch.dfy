/** The download step of download_and_process (lines 47-60): every result of a
    delivered order is written to `/tmp/data/<name>` unless it already exists and
    overwriting is off. The HTTP GET of a result is the parameter `body`, which
    gives the content served for a location. */
module Fetch {
  import opened Common

  /** One entry of the order's `_links.results`. */
  datatype ResultLink = ResultLink(location: string, name: string)

  const DataDir: string := "/tmp/data"

  /** `os.path.join('/tmp/data', name)`: an absolute name replaces the directory. */
  function LocalPath(name: string): string {
    if StartsWith(name, "/") then name else DataDir + "/" + name
  }

  /** The local file keeps the result's name: the name is a suffix of the path, and both
      have the same final component; a relative name lands under the data directory. */
  lemma LocalPathKeepsName(name: string)
    ensures EndsWith(LocalPath(name), name)
    ensures BaseName(LocalPath(name)) == BaseName(name)
    ensures !StartsWith(name, "/") ==> StartsWith(LocalPath(name), DataDir + "/")
  {
    if !StartsWith(name, "/") {
      BaseNameAfterSlash(DataDir, name);
    }
  }

  lemma {:induction false} BaseNameAfterSlash(dir: string, name: string)
    ensures BaseName(dir + "/" + name) == BaseName(name)
  {
    var s := dir + "/" + name;
    if name == [] {
      assert s[|s| - 1] == '/';
    } else {
      var front, c := name[..|name| - 1], name[|name| - 1];
      assert s[|s| - 1] == c && s[..|s| - 1] == dir + "/" + front;
      if c != '/' {
        calc {
          BaseName(s);
          BaseName(dir + "/" + front) + [c];
          { BaseNameAfterSlash(dir, front); }
          BaseName(front) + [c];
          BaseName(name);
        }
      }
    }
  }

  /** The download rule of line 54. */
  predicate ShouldDownload(overwrite: bool, present: bool) {
    overwrite || !present
  }

  function Locations(links: seq<ResultLink>): (urls: seq<string>)
    ensures |urls| == |links|
    ensures forall i :: 0 <= i < |links| ==> urls[i] == links[i].location
  {
    seq(|links|, i requires 0 <= i < |links| => links[i].location)
  }

  /** The local files after the loop, and the locations fetched, in order. */
  datatype Transfer = Transfer(files: map<string, Bytes>, fetched: seq<string>)

  /** What the download loop does with `links`, starting from the local files `files`. */
  function Fetched(files: map<string, Bytes>, links: seq<ResultLink>, overwrite: bool,
                   body: string -> Bytes): Transfer
  {
    if links == [] then Transfer(files, [])
    else
      var before := Fetched(files, links[..|links| - 1], overwrite, body);
      var link := links[|links| - 1];
      var path := LocalPath(link.name);
      if ShouldDownload(overwrite, path in before.files) then
        Transfer(before.files[path := body(link.location)], before.fetched + [link.location])
      else before
  }

  /** The local scratch directory. */
  class LocalDisk {
    var files: map<string, Bytes>

    constructor (files: map<string, Bytes>)
      ensures this.files == files
    {
      this.files := files;
    }

    /** `open(path, 'wb').write(content)`. */
    method Write(path: string, content: Bytes)
      modifies this
      ensures files == old(files)[path := content]
    {
      files := files[path := content];
    }
  }

  /** The loop of lines 53-60. */
  method FetchAll(disk: LocalDisk, links: seq<ResultLink>, overwrite: bool, body: string -> Bytes)
    returns (fetched: seq<string>)
    modifies disk
    ensures Transfer(disk.files, fetched) == Fetched(old(disk.files), links, overwrite, body)
  {
    fetched := [];
    for k := 0 to |links|
      invariant Transfer(disk.files, fetched) == Fetched(old(disk.files), links[..k], overwrite, body)
    {
      assert links[..k + 1][..k] == links[..k];
      var path := LocalPath(links[k].name);
      if ShouldDownload(overwrite, path in disk.files) {
        disk.Write(path, body(links[k].location));
        fetched := fetched + [links[k].location];
      }
    }
    assert links[..|links|] == links;
  }

  /** With overwriting on, every result is fetched, once each, in result order. */
  lemma {:induction false} OverwriteFetchesEveryResult(files: map<string, Bytes>, links: seq<ResultLink>,
                                                      body: string -> Bytes)
    ensures Fetched(files, links, true, body).fetched == Locations(links)
  {
    if links != [] {
      var front := links[..|links| - 1];
      OverwriteFetchesEveryResult(files, front, body);
      assert Locations(links) == Locations(front) + [links[|links| - 1].location];
    }
  }

  /** After the loop every result has a local file, and no file has gone. */
  lemma {:induction false} EveryResultPresent(files: map<string, Bytes>, links: seq<ResultLink>,
                                             overwrite: bool, body: string -> Bytes)
    ensures files.Keys <= Fetched(files, links, overwrite, body).files.Keys
    ensures forall l :: l in links ==> LocalPath(l.name) in Fetched(files, links, overwrite, body).files
  {
    if links != [] {
      var front := links[..|links| - 1];
      EveryResultPresent(files, front, overwrite, body);
      assert forall l :: l in links ==> l in front || l == links[|links| - 1];
    }
  }

  /** With overwriting off, a file that already exists is neither fetched nor changed. */
  lemma {:induction false} ExistingFilesKept(files: map<string, Bytes>, links: seq<ResultLink>,
                                            body: string -> Bytes)
    ensures forall p :: p in files ==>
              p in Fetched(files, links, false, body).files && Fetched(files, links, false, body).files[p] == files[p]
    ensures forall l :: l in Fetched(files, links, false, body).fetched ==>
              exists i :: 0 <= i < |links| && links[i].location == l && LocalPath(links[i].name) !in files
  {
    if links != [] {
      var front := links[..|links| - 1];
      ExistingFilesKept(files, front, body);
      EveryResultPresent(files, front, false, body);
      var last := links[|links| - 1];
      forall l | l in Fetched(files, links, false, body).fetched
        ensures exists i :: 0 <= i < |links| && links[i].location == l && LocalPath(links[i].name) !in files
      {
        if l in Fetched(files, front, false, body).fetched {
          var i :| 0 <= i < |front| && front[i].location == l && LocalPath(front[i].name) !in files;
          assert links[i] == front[i];
        } else {
          assert l == last.location && LocalPath(last.name) !in files;
        }
      }
    }
  }

  /** With overwriting off, a second run over the same results fetches nothing and
      leaves every local file as the first run left it. */
  lemma FetchIsIdempotent(files: map<string, Bytes>, links: seq<ResultLink>, body: string -> Bytes)
    ensures var first := Fetched(files, links, false, body);
            Fetched(first.files, links, false, body) == Transfer(first.files, [])
  {
    var first := Fetched(files, links, false, body);
    EveryResultPresent(files, links, false, body);
    NothingMissingNothingFetched(first.files, links, body);
  }

  lemma {:induction false} NothingMissingNothingFetched(files: map<string, Bytes>, links: seq<ResultLink>,
                                                       body: string -> Bytes)
    requires forall l :: l in links ==> LocalPath(l.name) in files
    ensures Fetched(files, links, false, body) == Transfer(files, [])
  {
    if links != [] {
      var front := links[..|links| - 1];
      assert forall l :: l in front ==> l in links;
      NothingMissingNothingFetched(files, front, body);
      assert links[|links| - 1] in links;
    }
  }

  /** Some result among `links` has the local path `p`. */
  predicate NamesPath(links: seq<ResultLink>, p: string) {
    exists j :: 0 <= j < |links| && LocalPath(links[j].name) == p
  }

  /** The results the loop downloads when overwriting is off: each result whose local file
      neither exists at the start nor was written for an earlier result. */
  function MissingLinks(files: map<string, Bytes>, links: seq<ResultLink>): seq<ResultLink> {
    if links == [] then []
    else
      var front, last := links[..|links| - 1], links[|links| - 1];
      var path := LocalPath(last.name);
      MissingLinks(files, front) + (if path in files || NamesPath(front, path) then [] else [last])
  }

  lemma {:induction false} NamesPathSplit(links: seq<ResultLink>, p: string)
    requires links != []
    ensures NamesPath(links, p) <==> NamesPath(links[..|links| - 1], p) || LocalPath(links[|links| - 1].name) == p
  {
  }


  /** After the loop the local files are those that existed plus one per result path. */
  lemma {:induction false} FetchedFiles(files: map<string, Bytes>, links: seq<ResultLink>,
                                       overwrite: bool, body: string -> Bytes)
    ensures forall p :: p in Fetched(files, links, overwrite, body).files <==> p in files || NamesPath(links, p)
  {
    if links != [] {
      FetchedFiles(files, links[..|links| - 1], overwrite, body);
      forall p
        ensures p in Fetched(files, links, overwrite, body).files <==> p in files || NamesPath(links, p)
      {
        NamesPathSplit(links, p);
      }
    }
  }

  /** Each path missing at the start and named by some result is downloaded exactly once;
      nothing else is downloaded. */
  lemma {:induction false} MissingLinksSpec(files: map<string, Bytes>, links: seq<ResultLink>)
    ensures forall i :: 0 <= i < |MissingLinks(files, links)| ==>
              MissingLinks(files, links)[i] in links && LocalPath(MissingLinks(files, links)[i].name) !in files
    ensures forall i, j :: 0 <= i < j < |MissingLinks(files, links)| ==>
              LocalPath(MissingLinks(files, links)[i].name) != LocalPath(MissingLinks(files, links)[j].name)
    ensures forall p :: p !in files && NamesPath(links, p) ==> NamesPath(MissingLinks(files, links), p)
  {
    if links != [] {
      var front, last := links[..|links| - 1], links[|links| - 1];
      var path := LocalPath(last.name);
      var before := MissingLinks(files, front);
      var m := MissingLinks(files, links);
      MissingLinksSpec(files, front);
      assert forall l :: l in front ==> l in links;
      if path in files || NamesPath(front, path) {
        assert m == before;
      } else {
        assert m == before + [last];
        forall i | 0 <= i < |before|
          ensures LocalPath(before[i].name) != path
        {
          var k :| 0 <= k < |front| && front[k] == before[i];
        }
      }
      forall p | p !in files && NamesPath(links, p)
        ensures NamesPath(m, p)
      {
        NamesPathSplit(links, p);
        if NamesPath(front, p) {
          var j :| 0 <= j < |before| && LocalPath(before[j].name) == p;
          assert m[j] == before[j];
        } else {
          assert LocalPath(m[|m| - 1].name) == p;
        }
      }
    }
  }

  /** The download for a missing path is made for the first result that names it. */
  lemma {:induction false} MissingLinksFirst(files: map<string, Bytes>, links: seq<ResultLink>)
    ensures forall i :: 0 <= i < |MissingLinks(files, links)| ==>
              exists k :: 0 <= k < |links| && links[k] == MissingLinks(files, links)[i] &&
                          !NamesPath(links[..k], LocalPath(links[k].name))
  {
    if links != [] {
      var front, last := links[..|links| - 1], links[|links| - 1];
      var path := LocalPath(last.name);
      var before := MissingLinks(files, front);
      var m := MissingLinks(files, links);
      MissingLinksFirst(files, front);
      forall i | 0 <= i < |m|
        ensures exists k :: 0 <= k < |links| && links[k] == m[i] && !NamesPath(links[..k], LocalPath(links[k].name))
      {
        if i < |before| {
          var k :| 0 <= k < |front| && front[k] == before[i] && !NamesPath(front[..k], LocalPath(front[k].name));
          assert links[..k] == front[..k] && links[k] == front[k] && m[i] == before[i];
        } else {
          var k := |links| - 1;
          assert m == before + [last];
          assert links[..k] == front && links[k] == m[i];
        }
      }
    } else {
      assert MissingLinks(files, links) == [];
    }
  }

  /** With overwriting off, the loop downloads exactly the results of `MissingLinks`, in
      result order. */
  lemma {:induction false} FetchesMissingLinks(files: map<string, Bytes>, links: seq<ResultLink>,
                                              body: string -> Bytes)
    ensures Fetched(files, links, false, body).fetched == Locations(MissingLinks(files, links))
  {
    if links != [] {
      var front, last := links[..|links| - 1], links[|links| - 1];
      FetchesMissingLinks(files, front, body);
      FetchedFiles(files, front, false, body);
      var before := MissingLinks(files, front);
      if !(LocalPath(last.name) in files || NamesPath(front, LocalPath(last.name))) {
        assert Locations(before + [last]) == Locations(before) + [last.location];
      }
    }
  }
}
