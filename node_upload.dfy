/**
 * The requests of the repository's node-upload service that the upload
 * scripts send: the initiating request and the stream of chunk requests,
 * whose data put together is the uploaded file.
 */
module NodeUpload {
  import opened Wrappers
  import opened Encodings

  /** `initiateUpload`'s request; `None` is a field left undefined. */
  datatype InitiateUploadRequest = InitiateUploadRequest(
    drive: string,
    parentId: string,
    name: string,
    expectedSize: nat,
    mimeType: Option<string>,
    connectorId: Option<string>)

  /** One message of the `uploadChunks` stream. */
  datatype ChunkRequest = ChunkRequest(nodeId: string, uploadId: string, data: seq<Byte>, chunkNumber: nat, isLast: bool)

  /** The data of the requests, in stream order. */
  function Payload(requests: seq<ChunkRequest>): seq<Byte> {
    if requests == [] then [] else Payload(requests[..|requests| - 1]) + requests[|requests| - 1].data
  }

  /** A stream closed properly: its last request, and no other, is marked last. */
  ghost predicate Closed(requests: seq<ChunkRequest>) {
    |requests| > 0
    && requests[|requests| - 1].isLast
    && forall i :: 0 <= i < |requests| - 1 ==> !requests[i].isLast
  }

  /** Every request of the stream is for the one upload. */
  ghost predicate ForUpload(requests: seq<ChunkRequest>, nodeId: string, uploadId: string) {
    forall i :: 0 <= i < |requests| ==> requests[i].nodeId == nodeId && requests[i].uploadId == uploadId
  }
}
