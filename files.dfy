/**
  `IdswyftClient._prepare_file` (client.py): a path, raw bytes or a readable
  stream becomes one `(field, content, mime)` upload triple.  Reading a file
  or a stream is an abstract byte source.
 */
module Files {
  import opened Bytes
  import opened Exceptions

  /** The argument's Python type, as `_prepare_file` tells them apart. */
  datatype FileData =
    | Path(path: string)               // str: always a file-system path
    | Raw(bytes: seq<byte>)            // bytes: used as they are
    | Stream(remaining: seq<byte>)     // has `read`: what `read()` returns
    | Unsupported(typeName: string)    // anything else (an int, a bytearray, ...)

  /** The files `open(path, "rb")` can read, with their contents. */
  type FileSystem = map<string, seq<byte>>

  datatype PreparedFile = PreparedFile(field: string, content: seq<byte>, mime: string)

  const OctetStream := "application/octet-stream"

  function PrepareFile(data: FileData, fs: FileSystem, field: string := "file"): (r: Result<PreparedFile>)
    ensures r.Ok? ==> r.value.field == field && r.value.mime == OctetStream
    ensures r.Ok? && data.Raw? ==> r.value.content == data.bytes
    ensures r.Ok? && data.Stream? ==> r.value.content == data.remaining
    ensures r.Ok? && data.Path? ==> data.path in fs && r.value.content == fs[data.path]
    ensures r.Err? <==> data.Unsupported? || (data.Path? && data.path !in fs)
    ensures r.Err? && data.Path? ==> r.raised == OSError(data.path)
    ensures r.Err? && data.Unsupported? ==>
              r.raised == ValueError("Invalid file data type: <class '" + data.typeName + "'>")
  {
    match data
    case Path(path) =>
      if path in fs then Ok(PreparedFile(field, fs[path], OctetStream)) else Err(OSError(path))
    case Raw(bytes) => Ok(PreparedFile(field, bytes, OctetStream))
    case Stream(remaining) => Ok(PreparedFile(field, remaining, OctetStream))
    case Unsupported(typeName) => Err(ValueError("Invalid file data type: <class '" + typeName + "'>"))
  }

  /** The same bytes from a path, a bytes value or a stream give the same upload triple. */
  lemma SameContentSameUpload(content: seq<byte>, path: string, fs: FileSystem, field: string)
    requires path in fs && fs[path] == content
    ensures PrepareFile(Path(path), fs, field) == PrepareFile(Raw(content), fs, field)
    ensures PrepareFile(Stream(content), fs, field) == PrepareFile(Raw(content), fs, field)
    ensures PrepareFile(Raw(content), fs, field) == Ok(PreparedFile(field, content, OctetStream))
  {
  }
}
