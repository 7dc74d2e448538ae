/** The storage requests the multipart upload adapter issues, and how their
    arguments are built from the upload record (`createHeatmapToStorage`,
    `uploadHeatmapToStorage`, `completeStorageUpload`, `abortStorageUpload`).
    The bucket comes from the environment and is not part of the model. */
module Storage {

  datatype Option<T> = None | Some(value: T)

  type Bytes = seq<bv8>

  /** The most the readable handler ever asks the stream for in one read. */
  const MaxReadBytes: nat := 9000000

  /** Every object this adapter writes lives under this fixed prefix. */
  const KeyPrefix: string := "main/"

  /** One entry of the completion list: a part number and the eTag its upload returned. */
  datatype Part = Part(partNumber: nat, eTag: string)

  /** An outbound storage request, with the arguments it was given. */
  datatype Call =
    | Create(key: string)
    | UploadPart(key: string, uploadId: string, partNumber: nat, body: Bytes)
    | Complete(key: string, uploadId: string, parts: seq<Part>)
    | Abort(key: string, uploadId: string)

  /** The object key of a file: the fixed prefix followed by the original file name. */
  function ObjectKey(filename: string): (key: string)
    ensures |key| == |KeyPrefix| + |filename|
    ensures key[..|KeyPrefix|] == KeyPrefix
    ensures key[|KeyPrefix|..] == filename
  {
    KeyPrefix + filename
  }

  /** The inverse of ObjectKey: the file name a key stands for, if it has the prefix. */
  function FilenameOfKey(key: string): (filename: Option<string>)
    ensures filename.Some? <==> |KeyPrefix| <= |key| && key[..|KeyPrefix|] == KeyPrefix
    ensures filename.Some? ==> filename.value == key[|KeyPrefix|..]
  {
    if |KeyPrefix| <= |key| && key[..|KeyPrefix|] == KeyPrefix then Some(key[|KeyPrefix|..]) else None
  }

  /** The create request of `createHeatmapToStorage`: it addresses the file's object. */
  function CreateRequest(filename: string): (c: Call)
    ensures c.Create? && FilenameOfKey(c.key) == Some(filename)
  {
    Create(ObjectKey(filename))
  }

  /** The part upload of `uploadHeatmapToStorage`: the file's object, the
      upload id, part number and body it is given. */
  function UploadPartRequest(filename: string, uploadId: string, partNumber: nat, body: Bytes): (c: Call)
    ensures c.UploadPart? && FilenameOfKey(c.key) == Some(filename)
    ensures c.uploadId == uploadId && c.partNumber == partNumber && c.body == body
  {
    UploadPart(ObjectKey(filename), uploadId, partNumber, body)
  }

  /** The completion request of `completeStorageUpload`: the file's object,
      the upload id and the part list it is given. */
  function CompleteRequest(filename: string, uploadId: string, parts: seq<Part>): (c: Call)
    ensures c.Complete? && FilenameOfKey(c.key) == Some(filename)
    ensures c.uploadId == uploadId && c.parts == parts
  {
    Complete(ObjectKey(filename), uploadId, parts)
  }

  /** The abort request of `abortStorageUpload`: the file's object and the upload id. */
  function AbortRequest(filename: string, uploadId: string): (c: Call)
    ensures c.Abort? && FilenameOfKey(c.key) == Some(filename) && c.uploadId == uploadId
  {
    Abort(ObjectKey(filename), uploadId)
  }

  /** A key built from a file name gives that file name back. */
  lemma KeyRoundTrip(filename: string)
    ensures FilenameOfKey(ObjectKey(filename)) == Some(filename)
  {
  }

  /** Every key that names a file is the key built from that file name. */
  lemma KeyFromFilename(key: string)
    requires FilenameOfKey(key).Some?
    ensures ObjectKey(FilenameOfKey(key).value) == key
  {
  }

  /** Two different files never share an object key. */
  lemma KeyInjective(f1: string, f2: string)
    requires ObjectKey(f1) == ObjectKey(f2)
    ensures f1 == f2
  {
  }
}
