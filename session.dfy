/** One multipart upload session of `S3WithPartsStorage._handleFile`: the
    upload record (`uploadInfo`), the list of pending part uploads
    (`promisePartsList`) and the stream event handlers that update them. */
module Session {
  import opened Storage
  import opened SessionSpec

  datatype Phase = Created | Open | Completed

  /** The upload record as the callback receives it. `processing` is None once
      the end handler has deleted the property. */
  datatype UploadInfo = UploadInfo(
    id: Option<string>,
    filename: string,
    size: nat,
    chunks: nat,
    processing: Option<bool>,
    parts: seq<Part>)

  /** The arguments the end handler passes to the caller's callback. */
  datatype Callback = Callback(err: Option<string>, info: UploadInfo)

  class UploadSession {
    var id: Option<string>
    const filename: string
    /** The size the incoming file declares; 0 when it declares none. */
    const declaredSize: nat
    var size: nat
    var chunks: nat
    var processing: Option<bool>
    /** Part numbers of the part uploads dispatched so far, in dispatch order. */
    var pending: seq<nat>
    var parts: seq<Part>
    var phase: Phase
    /** The chunks the stream has delivered, in order. */
    ghost var received: seq<Bytes>
    /** Every storage request sent so far, in order. */
    ghost var trace: seq<Call>

    ghost predicate Valid()
      reads this
    {
      && |received| == chunks
      && pending == PartNumbersUpTo(chunks)
      && size == SizeAfter(declaredSize, received)
      && (phase == Created <==> id.None?)
      && (phase == Created ==> chunks == 0 && trace == [] && parts == [] && processing == Some(false))
      && (phase == Open ==>
            parts == [] && processing.Some? && trace == SessionTrace(filename, id.value, received, None))
      && (phase == Completed ==>
            processing.None? && PartNumbersOf(parts) == pending
            && trace == SessionTrace(filename, id.value, received, Some(parts)))
    }

    function Info(): UploadInfo
      reads this
    {
      UploadInfo(id, filename, size, chunks, processing, parts)
    }

    /** The record as `_handleFile` first builds it: no upload id yet, the
        declared size (or 0), no chunks, not processing, no parts. */
    constructor (filename: string, declaredSize: nat)
      ensures Valid() && phase == Created
      ensures this.filename == filename && this.declaredSize == declaredSize
      ensures size == declaredSize && chunks == 0 && pending == [] && parts == []
      ensures processing == Some(false) && received == []
    {
      this.filename := filename;
      this.declaredSize := declaredSize;
      id := None;
      size := declaredSize;
      chunks := 0;
      processing := Some(false);
      pending := [];
      parts := [];
      phase := Created;
      received := [];
      trace := [];
    }

    /** The create call, and recording the upload id it returns. */
    method StartSession(uploadId: string)
      requires Valid() && phase == Created
      modifies this
      ensures Valid() && phase == Open && id == Some(uploadId)
      ensures trace == [Create(ObjectKey(filename))]
      ensures size == old(size) && chunks == 0 && pending == [] && parts == []
      ensures processing == old(processing) && received == []
    {
      trace := trace + [CreateRequest(filename)];
      id := Some(uploadId);
      phase := Open;
    }

    /** The readable handler: no read while a chunk is being dispatched,
        otherwise one read of at most MaxReadBytes bytes. */
    method OnReadable() returns (read: Option<nat>)
      ensures read.None? <==> processing == Some(true)
      ensures read.Some? ==> read.value == MaxReadBytes
    {
      if processing == Some(true) {
        read := None;
      } else {
        read := Some(MaxReadBytes);
      }
    }

    /** The data handler: the dispatch bookkeeping runs with `processing` set,
        and the flag is clear again when the handler returns. */
    method OnData(chunk: Bytes)
      requires Valid() && phase == Open
      modifies this
      ensures Valid() && phase == Open && id == old(id) && parts == old(parts)
      ensures chunks == old(chunks) + 1
      ensures pending == old(pending) + [chunks]
      ensures received == old(received) + [chunk]
      ensures size == if declaredSize != 0 then declaredSize else old(size) + |chunk|
      ensures trace == old(trace) + [UploadPart(ObjectKey(filename), id.value, chunks, chunk)]
      ensures processing == Some(false)
    {
      processing := Some(true);
      DispatchPart(chunk);
      processing := Some(false);
    }

    /** The body of the data handler between setting and clearing the flag:
        take the next part number, update the size, send the part upload and
        remember it as pending. */
    method DispatchPart(chunk: Bytes)
      requires Valid() && phase == Open && processing == Some(true)
      modifies this
      ensures Valid() && phase == Open && id == old(id) && parts == old(parts)
      ensures processing == Some(true)
      ensures chunks == old(chunks) + 1
      ensures pending == old(pending) + [chunks]
      ensures received == old(received) + [chunk]
      ensures size == if declaredSize != 0 then declaredSize else old(size) + |chunk|
      ensures trace == old(trace) + [UploadPart(ObjectKey(filename), id.value, chunks, chunk)]
    {
      SizeAfterStep(declaredSize, received, chunk);
      SessionTraceSnoc(filename, id.value, received, chunk);
      var partNumber := chunks + 1;
      chunks := partNumber;
      size := if declaredSize != 0 then declaredSize else size + |chunk|;
      trace := trace + [UploadPartRequest(filename, id.value, partNumber, chunk)];
      pending := pending + [partNumber];
      received := received + [chunk];
    }

    /** The end handler: gather the part results in submission order, send the
        completion call with them, delete `processing` and report success.
        `eTags[i]` is the eTag the upload of the i-th dispatched part returned. */
    method OnEnd(eTags: seq<string>) returns (result: Callback)
      requires Valid() && phase == Open && |eTags| == |pending|
      modifies this
      ensures Valid() && phase == Completed
      ensures parts == ZipParts(old(pending), eTags)
      ensures trace == old(trace) + [Complete(ObjectKey(filename), id.value, parts)]
      ensures processing.None?
      ensures id == old(id) && size == old(size) && chunks == old(chunks)
      ensures pending == old(pending) && received == old(received)
      ensures result == Callback(None, Info())
    {
      parts := ZipParts(pending, eTags);
      ZipPartsKeepsNumbers(pending, eTags);
      trace := trace + [CompleteRequest(filename, id.value, parts)];
      processing := None;
      phase := Completed;
      result := Callback(None, Info());
    }
  }

  /** One whole upload: the record is built, the create call returns
      `uploadId`, the stream delivers `stream` one chunk per data event (each
      preceded by a readable event) and then ends; `eTags[i]` is what the
      upload of the i-th chunk returned. `calls` is every request sent. */
  method HandleFile(filename: string, declaredSize: nat, uploadId: string, stream: seq<Bytes>, eTags: seq<string>)
    returns (result: Callback, ghost calls: seq<Call>)
    requires |eTags| == |stream|
    ensures result.err == None
    ensures result.info.id == Some(uploadId) && result.info.filename == filename
    ensures result.info.chunks == |stream| && result.info.processing == None
    ensures result.info.size == SizeAfter(declaredSize, stream)
    ensures result.info.parts == ZipParts(PartNumbersUpTo(|stream|), eTags)
    ensures calls == SessionTrace(filename, uploadId, stream, Some(result.info.parts))
  {
    var session := new UploadSession(filename, declaredSize);
    session.StartSession(uploadId);
    var i := 0;
    while i < |stream|
      invariant 0 <= i <= |stream|
      invariant session.Valid() && session.phase == Open
      invariant session.filename == filename && session.declaredSize == declaredSize
      invariant session.id == Some(uploadId)
      invariant session.received == stream[..i]
      invariant session.processing == Some(false)
    {
      var read := session.OnReadable();
      assert read == Some(MaxReadBytes);
      session.OnData(stream[i]);
      i := i + 1;
    }
    assert stream[..i] == stream;
    result := session.OnEnd(eTags);
    calls := session.trace;
  }
}
