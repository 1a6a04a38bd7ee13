/**
 * The repository seeding script: it reads its options, walks the given
 * directories, keeps one file per content hash, and uploads each kept file
 * as a single chunk, counting successes and failures.
 */
module SeedRepository {
  import opened Wrappers
  import opened Strings
  import opened Encodings
  import opened NodeUpload

  // ---------------------------------------------------------------- options

  datatype Options = Options(dirs: seq<string>, drive: string, concurrency: int, baseUrl: string)

  const DefaultBaseUrl := "http://localhost:38106/connect"

  /** The options before any argument is read; `envBaseUrl` is `PROXY_BASE_URL` ("" when unset). */
  function Defaults(envBaseUrl: string): (o: Options)
    ensures o.dirs == [] && o.drive == "pipedocs-drive" && o.concurrency == 4
    ensures o.baseUrl == (if envBaseUrl != "" then envBaseUrl else DefaultBaseUrl)
  {
    Options([], "pipedocs-drive", 4, OrElse(envBaseUrl, DefaultBaseUrl))
  }

  /**
   * `Number(text) || 4`. `number` stands for JavaScript's `Number` conversion,
   * `None` for `NaN`; conversions to a fraction are not modelled.
   */
  function Concurrency(number: string -> Option<int>, text: string): (c: int)
    ensures c != 0
    ensures number(text).Some? && number(text).value != 0 ==> c == number(text).value
    ensures number(text).None? || number(text) == Some(0) ==> c == 4
  {
    match number(text)
    case None => 4
    case Some(n) => if n == 0 then 4 else n
  }

  /** A flag's value is there when the next argument exists and is not empty. */
  predicate HasValue(args: seq<string>, i: int) {
    0 <= i && i + 1 < |args| && args[i + 1] != ""
  }

  /** The options after reading `args` from position `i` on. */
  function Scan(args: seq<string>, i: nat, o: Options, number: string -> Option<int>): Options
    decreases |args| - i
  {
    if i >= |args| then o
    else if args[i] == "--dir" && HasValue(args, i) then Scan(args, i + 2, o.(dirs := o.dirs + [args[i + 1]]), number)
    else if args[i] == "--drive" && HasValue(args, i) then Scan(args, i + 2, o.(drive := args[i + 1]), number)
    else if args[i] == "--concurrency" && HasValue(args, i) then
      Scan(args, i + 2, o.(concurrency := Concurrency(number, args[i + 1])), number)
    else if args[i] == "--base-url" && HasValue(args, i) then Scan(args, i + 2, o.(baseUrl := args[i + 1]), number)
    else Scan(args, i + 1, o, number)
  }

  /** The argument loop of `main`. */
  method ParseArgs(args: seq<string>, envBaseUrl: string, number: string -> Option<int>) returns (o: Options)
    ensures o == Scan(args, 0, Defaults(envBaseUrl), number)
  {
    o := Defaults(envBaseUrl);
    var i := 0;
    while i < |args|
      invariant 0 <= i <= |args| + 1
      invariant Scan(args, i, o, number) == Scan(args, 0, Defaults(envBaseUrl), number)
      decreases |args| - i
    {
      var a := args[i];
      if a == "--dir" && HasValue(args, i) {
        i := i + 1;
        o := o.(dirs := o.dirs + [args[i]]);
      } else if a == "--drive" && HasValue(args, i) {
        i := i + 1;
        o := o.(drive := args[i]);
      } else if a == "--concurrency" && HasValue(args, i) {
        i := i + 1;
        o := o.(concurrency := Concurrency(number, args[i]));
      } else if a == "--base-url" && HasValue(args, i) {
        i := i + 1;
        o := o.(baseUrl := args[i]);
      }
      i := i + 1;
    }
  }

  /** `--dir` pairs, one per directory. */
  function DirArgs(dirs: seq<string>): (args: seq<string>)
    ensures |args| == 2 * |dirs|
  {
    if dirs == [] then [] else ["--dir", dirs[0]] + DirArgs(dirs[1..])
  }

  /** Each `--dir` followed by a non-empty argument appends that argument, in order; nothing else changes. */
  lemma {:induction false} ScanDirs(dirs: seq<string>, o: Options, number: string -> Option<int>)
    requires forall i :: 0 <= i < |dirs| ==> dirs[i] != ""
    ensures Scan(DirArgs(dirs), 0, o, number) == o.(dirs := o.dirs + dirs)
    decreases |dirs|
  {
    if dirs != [] {
      var args := DirArgs(dirs);
      assert args[2..] == DirArgs(dirs[1..]);
      assert HasValue(args, 0);
      ScanDirs(dirs[1..], o.(dirs := o.dirs + [dirs[0]]), number);
      ScanShift(args, 2, o.(dirs := o.dirs + [dirs[0]]), number);
      assert o.dirs + [dirs[0]] + dirs[1..] == o.dirs + dirs;
    }
  }

  /** Reading from position `k` is reading the arguments that follow it. */
  lemma {:induction false} ScanShift(args: seq<string>, k: nat, o: Options, number: string -> Option<int>)
    requires k <= |args|
    ensures Scan(args, k, o, number) == Scan(args[k..], 0, o, number)
  {
    ScanShiftFrom(args, k, 0, o, number);
  }

  lemma {:induction false} ScanShiftFrom(args: seq<string>, k: nat, j: nat, o: Options, number: string -> Option<int>)
    requires k <= |args|
    ensures Scan(args, k + j, o, number) == Scan(args[k..], j, o, number)
    decreases |args| - (k + j)
  {
    var rest := args[k..];
    if k + j < |args| {
      var a := args[k + j];
      assert rest[j] == a;
      assert HasValue(args, k + j) == HasValue(rest, j);
      if HasValue(args, k + j) {
        var v := args[k + j + 1];
        assert rest[j + 1] == v;
        if a == "--dir" {
          ScanShiftFrom(args, k, j + 2, o.(dirs := o.dirs + [v]), number);
        } else if a == "--drive" {
          ScanShiftFrom(args, k, j + 2, o.(drive := v), number);
        } else if a == "--concurrency" {
          ScanShiftFrom(args, k, j + 2, o.(concurrency := Concurrency(number, v)), number);
        } else if a == "--base-url" {
          ScanShiftFrom(args, k, j + 2, o.(baseUrl := v), number);
        } else {
          ScanShiftFrom(args, k, j + 1, o, number);
        }
      } else {
        ScanShiftFrom(args, k, j + 1, o, number);
      }
    }
  }

  /** A flag with no value after it consumes nothing, and so does an unknown argument. */
  lemma ScanSkips(args: seq<string>, i: nat, o: Options, number: string -> Option<int>)
    requires i < |args|
    requires !HasValue(args, i) || args[i] !in {"--dir", "--drive", "--concurrency", "--base-url"}
    ensures Scan(args, i, o, number) == Scan(args, i + 1, o, number)
  {
  }

  /** No directory means the usage message and exit status 1. */
  function CheckOptions(o: Options): (r: Result<Options, int>)
    ensures r.Err? <==> o.dirs == []
    ensures r.Err? ==> r.error == 1
    ensures r.Ok? ==> r.value == o
  {
    if |o.dirs| == 0 then Err(1) else Ok(o)
  }

  /** `Math.max(1, concurrency)`: the number of upload workers. */
  function WorkerCount(concurrency: int): (n: nat)
    ensures n >= 1 && n >= concurrency
    ensures n == 1 || n == concurrency
  {
    if concurrency > 1 then concurrency else 1
  }

  // ---------------------------------------------------------------- collection

  /** A file found by walking a directory: its path, its path relative to that directory, and its SHA-256 in hex. */
  datatype Found = Found(abs: string, rel: string, hash: string)

  /** The hashes of a list of files. */
  function Hashes(files: seq<Found>): set<string> {
    set i | 0 <= i < |files| :: files[i].hash
  }

  /** The files kept from a walk: each one whose hash was not seen before it. */
  function FirstByHash(found: seq<Found>): seq<Found> {
    if found == [] then []
    else
      var kept := FirstByHash(found[..|found| - 1]);
      if found[|found| - 1].hash in Hashes(kept) then kept else kept + [found[|found| - 1]]
  }

  lemma HashesSnoc(files: seq<Found>, f: Found)
    ensures Hashes(files + [f]) == Hashes(files) + {f.hash}
  {
    var all := files + [f];
    assert all[|files|] == f;
    forall h | h in Hashes(files) ensures h in Hashes(all) {
      var i :| 0 <= i < |files| && files[i].hash == h;
      assert all[i] == files[i];
    }
  }

  /** The kept files cover every hash found, once each. */
  lemma {:induction false} FirstByHashProperties(found: seq<Found>)
    ensures Hashes(FirstByHash(found)) == Hashes(found)
    ensures forall i, j :: 0 <= i < j < |FirstByHash(found)| ==> FirstByHash(found)[i].hash != FirstByHash(found)[j].hash
  {
    if found != [] {
      var n := |found|;
      var last := found[n - 1];
      var kept := FirstByHash(found[..n - 1]);
      FirstByHashProperties(found[..n - 1]);
      assert found == found[..n - 1] + [last];
      HashesSnoc(found[..n - 1], last);
      if last.hash !in Hashes(kept) {
        HashesSnoc(kept, last);
        var r := kept + [last];
        forall i, j | 0 <= i < j < |r| ensures r[i].hash != r[j].hash {
          if j == |kept| {
            assert r[i] == kept[i];
          }
        }
      }
    }
  }

  /** No file before position `i` has the hash of the file at `i`. */
  ghost predicate FirstOfHash(found: seq<Found>, i: int)
    requires 0 <= i < |found|
  {
    forall j :: 0 <= j < i ==> found[j].hash != found[i].hash
  }

  /** A kept file is the first one found with its hash. */
  lemma {:induction false} FirstByHashKeepsFirst(found: seq<Found>, k: nat)
    requires k < |FirstByHash(found)|
    ensures exists i :: 0 <= i < |found| && found[i] == FirstByHash(found)[k] && FirstOfHash(found, i)
  {
    var n := |found|;
    var kept := FirstByHash(found[..n - 1]);
    if k < |kept| {
      FirstByHashKeepsFirst(found[..n - 1], k);
      var i :| 0 <= i < n - 1 && found[..n - 1][i] == kept[k] && FirstOfHash(found[..n - 1], i);
      assert found[i] == kept[k];
      forall j | 0 <= j < i ensures found[j].hash != found[i].hash {
        assert found[..n - 1][j] == found[j];
      }
      assert FirstOfHash(found, i);
    } else {
      FirstByHashProperties(found[..n - 1]);
      var i := n - 1;
      forall j | 0 <= j < i ensures found[j].hash != found[i].hash {
        assert found[..n - 1][j].hash in Hashes(found[..n - 1]);
      }
      assert FirstOfHash(found, i);
    }
  }

  /** The collection loop: a file whose hash is already in `seenHashes` is skipped. */
  method CollectFiles(found: seq<Found>) returns (files: seq<Found>, seenHashes: set<string>)
    ensures files == FirstByHash(found)
    ensures seenHashes == Hashes(found)
  {
    files := [];
    seenHashes := {};
    for k := 0 to |found|
      invariant files == FirstByHash(found[..k])
      invariant seenHashes == Hashes(files)
    {
      assert found[..k + 1][..k] == found[..k];
      var hash := found[k].hash;
      if hash in seenHashes {
        continue;
      }
      HashesSnoc(files, found[k]);
      seenHashes := seenHashes + {hash};
      files := files + [found[k]];
    }
    assert found[..|found|] == found;
    FirstByHashProperties(found);
  }

  // ---------------------------------------------------------------- upload

  /** `path.basename` of a relative file path: the text after its last slash. */
  function Basename(relPath: string): (name: string)
    ensures '/' !in name
  {
    LastSegment(relPath, '/')
  }

  /** `savePipeDoc`'s request: the document's source path and title, the drive and the connector. */
  datatype SavePipeDocRequest = SavePipeDocRequest(path: string, title: string, drive: string, connectorId: string)

  /** The three calls `uploadFile` makes for one file of content `data`, given the ids the initiating call returns. */
  datatype FileUpload = FileUpload(initiate: InitiateUploadRequest, chunks: seq<ChunkRequest>, save: SavePipeDocRequest)

  function UploadFile(relPath: string, drive: string, data: seq<Byte>, nodeId: string, uploadId: string): FileUpload {
    FileUpload(
      InitiateUploadRequest(drive, "", Basename(relPath), |data|, None, Some("seed-cli")),
      [ChunkRequest(nodeId, uploadId, data, 1, true)],
      SavePipeDocRequest(relPath, Basename(relPath), drive, "seed-cli"))
  }

  /** One file is one chunk numbered 1 and marked last, carrying the whole file whose size was announced. */
  lemma SingleChunkUpload(relPath: string, drive: string, data: seq<Byte>, nodeId: string, uploadId: string)
    ensures var u := UploadFile(relPath, drive, data, nodeId, uploadId);
      && |u.chunks| == 1 && u.chunks[0].chunkNumber == 1
      && Closed(u.chunks) && ForUpload(u.chunks, nodeId, uploadId)
      && Payload(u.chunks) == data && u.initiate.expectedSize == |Payload(u.chunks)|
      && u.initiate.name == u.save.title && u.save.path == relPath
  {
    var u := UploadFile(relPath, drive, data, nodeId, uploadId);
    PayloadOfOne(u.chunks[0]);
  }

  lemma PayloadOfOne(request: ChunkRequest)
    ensures Payload([request]) == request.data
  {
    assert [request][..0] == [];
  }

  /** The totals printed at the end. */
  datatype Summary = Summary(attempted: nat, uploaded: nat, failed: nat)

  /** A successful upload's record: the relative path and the stored node's id. */
  datatype Uploaded = Uploaded(file: string, nodeId: string)

  /** The records of the files whose upload succeeded, in queue order. */
  function Successes(files: seq<Found>, outcome: Found -> Result<string, string>): seq<Uploaded> {
    if files == [] then []
    else
      var rest := Successes(files[..|files| - 1], outcome);
      var f := files[|files| - 1];
      if outcome(f).Ok? then rest + [Uploaded(f.rel, outcome(f).value)] else rest
  }

  /**
   * The workers draining the queue, one file after another. `outcome` stands
   * for `uploadFile`: the stored node's id, or the error it threw.
   */
  method DrainQueue(files: seq<Found>, outcome: Found -> Result<string, string>) returns (summary: Summary, results: seq<Uploaded>)
    ensures results == Successes(files, outcome)
    ensures summary.attempted == |files|
    ensures summary.uploaded == |results| && summary.uploaded + summary.failed == summary.attempted
  {
    var queue := files;
    var ok, fail := 0, 0;
    results := [];
    while |queue| > 0
      invariant |queue| <= |files| && queue == files[|files| - |queue|..]
      invariant results == Successes(files[..|files| - |queue|], outcome)
      invariant ok == |results| && ok + fail == |files| - |queue|
    {
      var done := |files| - |queue|;
      var item := queue[0];
      assert item == files[done];
      assert files[..done + 1][..done] == files[..done];
      queue := queue[1..];
      var r := outcome(item);
      if r.Ok? {
        ok := ok + 1;
        results := results + [Uploaded(item.rel, r.value)];
      } else {
        fail := fail + 1;
      }
    }
    assert files[..|files|] == files;
    summary := Summary(|files|, ok, fail);
  }

  /** The script from options to summary: usage error without directories, else collection and upload. */
  method Seed(o: Options, found: seq<Found>, outcome: Found -> Result<string, string>)
    returns (r: Result<Summary, int>)
    ensures o.dirs == [] <==> r == Err(1)
    ensures r.Ok? ==> r.value.attempted == |FirstByHash(found)| && |Hashes(found)| == r.value.attempted
  {
    var checked := CheckOptions(o);
    if checked.Err? {
      return Err(checked.error);
    }
    var files, _ := CollectFiles(found);
    var summary, _ := DrainQueue(files, outcome);
    FirstByHashProperties(found);
    DistinctHashesCount(files);
    r := Ok(summary);
  }

  /** Files with pairwise different hashes have as many hashes as files. */
  lemma {:induction false} DistinctHashesCount(files: seq<Found>)
    requires forall i, j :: 0 <= i < j < |files| ==> files[i].hash != files[j].hash
    ensures |Hashes(files)| == |files|
  {
    if files != [] {
      var n := |files|;
      var init := files[..n - 1];
      DistinctHashesCount(init);
      assert files == init + [files[n - 1]];
      HashesSnoc(init, files[n - 1]);
      assert files[n - 1].hash !in Hashes(init);
    }
  }
}
