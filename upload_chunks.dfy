/**
 * The chunked-upload script: it checks its arguments, initiates an upload of
 * one file and streams the file's buffers as numbered chunk requests,
 * followed by one empty request that closes the stream.
 */
module UploadChunks {
  import opened Wrappers
  import opened Strings
  import opened Encodings
  import opened NodeUpload

  /** The read stream's `highWaterMark`: no buffer it yields is longer. */
  const ChunkSize: nat := 512 * 1024

  /** What the script goes on to upload: the file argument and the drive. */
  datatype Invocation = Invocation(filePath: string, drive: string)

  /**
   * The argument checks of `main`. `argv` is `process.argv` (the runtime and
   * the script come first); `stat` is `None` when the file cannot be stat'ed,
   * else whether it is a regular file. Every failure exits with status 1.
   */
  function CheckArguments(argv: seq<string>, stat: Option<bool>): (r: Result<Invocation, int>)
    ensures r.Err? ==> r.error == 1
    ensures r.Ok? <==> |argv| > 2 && argv[2] != "" && stat == Some(true)
    ensures r.Ok? ==> r.value.filePath == argv[2]
    ensures r.Ok? ==> r.value.drive == if |argv| > 3 && argv[3] != "" then argv[3] else "modules-drive"
  {
    var filePath := if |argv| > 2 then argv[2] else "";
    var drive := OrElse(if |argv| > 3 then argv[3] else "", "modules-drive");
    if filePath == "" then Err(1)
    else if stat != Some(true) then Err(1)
    else Ok(Invocation(filePath, drive))
  }

  /** The initiating request for a file of `size` bytes called `name`. */
  function Initiate(invocation: Invocation, name: string, size: nat): (request: InitiateUploadRequest)
    ensures request.name == name && request.drive == invocation.drive && request.parentId == "" && request.expectedSize == size
    ensures request.mimeType == Some("application/octet-stream") && request.connectorId.None?
  {
    InitiateUploadRequest(invocation.drive, "", name, size, Some("application/octet-stream"), None)
  }

  /**
   * The stream `makeRequests` yields for the buffers the file is read in:
   * one data request per buffer, numbered from 1 and not last, then an empty
   * request marked last that repeats the count of data requests.
   */
  function Requests(nodeId: string, uploadId: string, buffers: seq<seq<Byte>>): (requests: seq<ChunkRequest>)
    ensures |requests| == |buffers| + 1
    ensures forall i :: 0 <= i < |buffers| ==> requests[i] == ChunkRequest(nodeId, uploadId, buffers[i], i + 1, false)
    ensures requests[|buffers|] == ChunkRequest(nodeId, uploadId, [], |buffers|, true)
  {
    seq(|buffers|, i requires 0 <= i < |buffers| => ChunkRequest(nodeId, uploadId, buffers[i], i + 1, false))
    + [ChunkRequest(nodeId, uploadId, [], |buffers|, true)]
  }

  /** `makeRequests`: the counter goes up once per buffer, and the closing request carries its final value. */
  method MakeRequests(nodeId: string, uploadId: string, buffers: seq<seq<Byte>>) returns (requests: seq<ChunkRequest>)
    ensures requests == Requests(nodeId, uploadId, buffers)
  {
    var chunkNumber := 0;
    requests := [];
    for i := 0 to |buffers|
      invariant chunkNumber == i
      invariant requests == Requests(nodeId, uploadId, buffers[..i])[..i]
    {
      chunkNumber := chunkNumber + 1;
      requests := requests + [ChunkRequest(nodeId, uploadId, buffers[i], chunkNumber, false)];
    }
    assert buffers[..|buffers|] == buffers;
    requests := requests + [ChunkRequest(nodeId, uploadId, [], chunkNumber, true)];
  }

  /** The data requests' payload is the buffers one after another. */
  lemma {:induction false} DataPayload(nodeId: string, uploadId: string, buffers: seq<seq<Byte>>)
    ensures Payload(Requests(nodeId, uploadId, buffers)[..|buffers|]) == Concat(buffers)
  {
    var requests := Requests(nodeId, uploadId, buffers);
    if buffers != [] {
      var n := |buffers|;
      var shorter := Requests(nodeId, uploadId, buffers[..n - 1]);
      assert requests[..n][..n - 1] == shorter[..n - 1];
      DataPayload(nodeId, uploadId, buffers[..n - 1]);
    }
  }

  /**
   * The stream is closed properly, is all for the one upload, and its data
   * put together is the file read in buffers; an empty file is one request
   * numbered 0.
   */
  lemma RequestsReassemble(nodeId: string, uploadId: string, buffers: seq<seq<Byte>>)
    ensures var requests := Requests(nodeId, uploadId, buffers);
      && Closed(requests)
      && ForUpload(requests, nodeId, uploadId)
      && Payload(requests) == Concat(buffers)
    ensures buffers == [] ==> Requests(nodeId, uploadId, buffers) == [ChunkRequest(nodeId, uploadId, [], 0, true)]
  {
    var requests := Requests(nodeId, uploadId, buffers);
    DataPayload(nodeId, uploadId, buffers);
    assert requests[..|requests| - 1] == requests[..|buffers|];
    assert Payload(requests) == Payload(requests[..|buffers|]) + [];
  }
}
