# Multipart upload session of `S3WithPartsStorage`

This project models the bookkeeping of one upload session in the storage
engine `S3WithPartsStorage` (`src/s3.storage.ts`). The engine receives a file
stream from the multipart form parser and relays it to object storage as a
multipart upload:

- `_handleFile` builds the upload record (`uploadInfo`) and issues the create
  call. It stores the upload id the call returns.
- The stream's `readable` handler asks for at most 9,000,000 bytes, and only
  while no chunk is being dispatched.
- Each `data` event is handled with the `processing` flag set. The handler
  takes the next part number (`chunks + 1`) and updates the size: the declared
  size when it is non-zero, otherwise a running byte count. It then starts the
  part upload and appends the pending result to `promisePartsList`.
- The `end` handler gathers the pending results in submission order
  (`Promise.all`) and sends the completion call with that list. It then
  deletes `processing` and calls back with `(null, uploadInfo)`.
- Every request addresses the object `"main/" + filename`. Every request
  after the create call carries the upload id the create call returned.

Layout:

- `storage.dfy` (module `Storage`): the request datatype `Call`, the
  completion entry `Part`, the object key and the four request builders.
- `session_spec.dfy` (module `SessionSpec`): pure functions that say what a
  session should look like after a given sequence of chunks. They cover the
  part numbers, the reported size, every request sent (`SessionTrace`) and
  the completion list. The lemmas about them are here too.
- `session.dfy` (module `Session`): the class `UploadSession` holds the fields
  of `uploadInfo`, the pending part numbers and the phase. Its methods are the
  event handlers. A ghost `trace` records every storage request and a ghost
  `received` records the chunks. `Valid()` ties the real fields to the
  functions of `SessionSpec`. `HandleFile` runs one whole upload: the create
  call, then one readable and one data event per chunk, then the end event.

The storage service, the stream and the promises are not executed. The upload
id returned by the create call, the chunks the stream delivers and the eTags
the part uploads return are inputs. `eTags[i]` belongs to the i-th dispatched
part.

What the code does, and so what the model does:

- The key never has a namespace prefix. It is always `main/` followed by the
  file name (src/s3.storage.ts:119).
- No failure of a storage call is caught, and no abort request is ever sent
  (src/s3.storage.ts:103-113, 148-154).
- The form field holding the metadata is parsed with `JSON.parse`, which
  throws on malformed input; there is no fallback (src/s3.storage.ts:40).
- A stream without chunks still sends a completion call, with an empty part
  list (src/s3.storage.ts:104-106).

## Model

| member | source | states |
|---|---|---|
| Storage.ObjectKey | src/s3.storage.ts:119 | the object key is the prefix `main/` followed by exactly the file name |
| Storage.FilenameOfKey | src/s3.storage.ts:119 | a key names a file exactly when it starts with `main/`; the file name is the rest |
| Storage.KeyRoundTrip | src/s3.storage.ts:119 | the file name is recovered from the key built for it |
| Storage.KeyFromFilename | src/s3.storage.ts:119 | every key with the prefix is the key built from the file name it names |
| Storage.KeyInjective | src/s3.storage.ts:119 | two different file names never share an object key |
| Storage.CreateRequest | src/s3.storage.ts:116-121 | the create request addresses the object whose key names the file |
| Storage.UploadPartRequest | src/s3.storage.ts:123-135 | the part upload addresses the file's object and carries the upload id, part number and body it is given |
| Storage.CompleteRequest | src/s3.storage.ts:137-146 | the completion request addresses the file's object and carries the upload id and the part list it is given |
| Storage.AbortRequest | src/s3.storage.ts:148-154 | the abort request addresses the file's object and carries the upload id it is given |
| SessionSpec.PartNumbersUpTo | src/s3.storage.ts:66-67 | n data events hand out the part numbers 1..n in order: entry i is i+1 |
| SessionSpec.PartNumbersNoGapsNoRepeats | src/s3.storage.ts:66-67 | the handed-out part numbers are exactly 1..n and strictly increasing, so no gaps and no repeats |
| SessionSpec.FlattenLength | src/s3.storage.ts:75 | the running byte count equals the length of all bytes received |
| SessionSpec.SizeAfterStep | src/s3.storage.ts:75 | the initial size is the declared size; one data event leaves the declared size in place when it is non-zero and adds the chunk's length otherwise |
| SessionSpec.SizeCountsReceivedBytes | src/s3.storage.ts:75 | with no declared size, the reported size is the number of bytes of all chunks received |
| SessionSpec.UploadCalls | src/s3.storage.ts:77-96 | one part upload per chunk received |
| SessionSpec.UploadCallsAt | src/s3.storage.ts:79-83 | the i-th chunk goes out as part i+1 of the session's upload, to the file's object, with that chunk as body |
| SessionSpec.UploadedBodies | src/s3.storage.ts:128-134 | the part-upload bodies, in request order, are the chunks in stream order: nothing dropped or repeated |
| SessionSpec.ZipParts | src/s3.storage.ts:104 | the gathered results are in submission order: entry i pairs the i-th part number with the i-th eTag |
| SessionSpec.ZipPartsKeepsNumbers | src/s3.storage.ts:91-94 | gathering the results keeps the submitted part numbers, in submission order |
| SessionSpec.CompletionList | src/s3.storage.ts:138-145 | the completion list of n parts is parts 1..n in ascending order, each with the eTag of its own upload |
| SessionSpec.SessionTraceShape | src/s3.storage.ts:49-113 | every request addresses `main/` + file name and every request after create carries the upload id; create comes first, then the uploads numbered from 1 in chunk order, then the completion call last; no abort is ever sent; the upload bodies are the chunks |
| Session.UploadSession.constructor | src/s3.storage.ts:33-47 | the fresh record has no upload id, the declared size (or 0), no chunks, `processing` false, no parts and no pending uploads |
| Session.UploadSession.StartSession | src/s3.storage.ts:49-51 | the create call is the first request, and the upload id it returns is stored |
| Session.UploadSession.OnReadable | src/s3.storage.ts:55-61 | no read while `processing` is true; otherwise exactly one read of 9,000,000 bytes |
| Session.UploadSession.OnData | src/s3.storage.ts:63-101 | `chunks` grows by one and the new value is the part number appended to the pending list and sent with the chunk; the size follows the size rule; `processing` is false on exit; the session invariant holds |
| Session.UploadSession.DispatchPart | src/s3.storage.ts:66-96 | the dispatch bookkeeping runs only while `processing` is true, and keeps it true |
| Session.UploadSession.OnEnd | src/s3.storage.ts:103-113 | the parts are the pending results in submission order; the completion call with them is the last request; `processing` is deleted; the callback gets no error and the record |
| Session.HandleFile | src/s3.storage.ts:28-114 | after a whole upload of n chunks the callback gets no error, the stored upload id, n chunks, the size rule's size, no `processing`, and parts 1..n paired with their eTags; the requests sent are exactly create, the n uploads in order, then completion |

## Left out

- S3 client construction, region and credentials from the environment, and
  the bucket name: configuration of a foreign SDK.
- The storage calls themselves: they are recorded as `Call` values, and their
  results (upload id, eTags) are inputs.
- `JSON.parse(file.fieldname)` and the `data` and `metadata` fields of the
  record: a foreign parse and the SDK's response metadata. The model starts
  from a record that was built. When the parse throws, `_handleFile` stops
  before the record exists, so no create call is sent; that path is not
  modelled.
- Stream semantics: flowing and paused mode, the re-emitted `readable` event
  at the end of the data handler, and the actual sizes of the chunks. Chunks
  are inputs. The read request is bounded; the chunks need not be.
- Async scheduling and the order in which part uploads finish. Only the
  submission order that `Promise.all` returns is modelled.
- Failures of the create, part-upload or completion calls: the code catches
  none of them. When a part upload fails, the promise built around it never
  calls `resolve` (src/s3.storage.ts:78-95). The `Promise.all` in the end
  handler then never settles, so neither the completion call nor the callback
  happens: the session hangs rather than failing. The model covers only runs
  in which every call returns. `abortStorageUpload` is never called, so the
  abort request appears only in the proof that no session ever sends it.
- What the storage service answers to a completion call with no parts, and
  its 10,000-part limit: neither is checked by the code.
- `console.info` logging.
- `size` is `number | string` in the record type and is coerced with unary
  `+`. The model keeps it a natural number, since it only ever holds numbers.
